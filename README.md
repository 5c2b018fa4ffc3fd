# LVQ4J in Dafny

A model of lvq4j, a small Java library for Learning Vector Quantization (LVQ)
classification, with proofs about the model. An LVQ network keeps one prototype
row per cluster; every row is a feature vector whose last slot holds the
cluster (label) id. Training moves the best matching unit (BMU), the closest
prototype, towards a sample of its own label and away from a sample of another
label, for a number of epochs, while the learn rate decays.

The modules follow the library's classes:

| module | file | models |
|---|---|---|
| Wrappers | wrappers.dfy | the Java exceptions as an `Error` value, with `Option`, `Result` and `Outcome` |
| Doubles | doubles.dfy | `double` as `real`: the finite range (exact `Double.MAX_VALUE`, `Double.MIN_VALUE`), division by zero, `Math.abs`, the `(int)` cast |
| NormalizationFunction | normalization_function.dfy | `validateInputVector` and the four normalizers, in place over an `array<real>`, each proved against a function of the old contents |
| DistanceMetric | distance_metric.dfy | the input validator and the Hamming, squared Euclidean, Euclidean and Manhattan metrics as accumulator loops, with their metric properties |
| WeightsInitializer | weights_initializer.dfy | the six initialization strategies over arrays of row arrays, including list removal, the shuffle and the label-balanced sweep, with a generator object `Rng` |
| Training | training.dfy | the learning rule as functions: BMU search, update of one prototype, one epoch, and the whole epoch loop of `train` with its decay, halt, snapshot and listener steps |
| Lvqnn | lvqnn.dfy | the class `LVQNN` as a Dafny class with the same fields, whose methods are proved against the Training functions |
| ModelBuilder | model_builder.dfy | the builder with its guards and range checks |
| BasicDataRecord | basic_data_record.dfy | the data record: construction checks, the CSV text form (`saveToString` and `loadFromString`) and `equals` |
| AppendableDataRecord | appendable_data_record.dfy | the record filled slot by slot with `append` and `set` |

Things outside the program become parameters:
- `Math.sqrt` is a `real -> real` function carried by the Euclidean metric and by the Z_SCORE and UNIT_LEN_SCALE normalizers;
- `java.util.Random` is a draw function `nat -> nat` plus a draw counter, and `nextInt(bound)` is the next draw modulo the bound;
- the halt request from another thread is a function `requests: nat -> bool`, read once per epoch boundary;
- the serializer and the listener are flags, and each call they would receive is recorded as an `Event`;
- `Double.toString`, `Double.parseDouble` and a record class's label translations are functions handed to the record methods.

In a record vector NaN matters: a NaN slot is an empty slot. The records therefore model a slot as `Option<real>`, with
`None` for NaN. In the engine the validators reject NaN and the infinities
alike, so a value there is a `real`, and a value outside the finite range
stands for an infinity.

## Model

| member | source | states |
|---|---|---|
| Doubles.DivDouble | src/main/java/me/darksidecode/lvq4j/LVQNN.java:789 | Java's double division: `x / d` for a non-zero divisor; for a zero divisor a value outside the finite range, so every later finiteness check sees NaN or an infinity |
| Doubles.Abs | src/main/java/me/darksidecode/lvq4j/DistanceMetric.java:128 | Math.abs: non-negative, and equal to x or -x |
| Doubles.Trunc | src/main/java/me/darksidecode/lvq4j/LVQNN.java:892 | the `(int)` cast on a double: truncation toward zero, giving the floor for a non-negative argument and a non-positive result for a non-positive one; the result's magnitude never exceeds the argument's and a whole number is returned unchanged |
| NormalizationFunction.ValidateInputVector | src/main/java/me/darksidecode/lvq4j/NormalizationFunction.java:195-211 | the scanning loop inside ValidateInputVector accepts a vector exactly when it is non-empty and every element is finite; an empty vector gives IllegalArgumentException, a non-finite element ArithmeticException |
| NormalizationFunction.MinMaxNormalize | src/main/java/me/darksidecode/lvq4j/NormalizationFunction.java:69-86 | validation comes before any write, and a rejected vector stays unchanged; an accepted one becomes (x - xMin) / (xMax - xMin) on each feature slot, where xMin starts at Double.MAX_VALUE and xMax at Double.MIN_VALUE; the label slot is kept |
| NormalizationFunction.MeanNormalize | src/main/java/me/darksidecode/lvq4j/NormalizationFunction.java:98-118 | the same validate-first behaviour; each feature becomes (x - mean) / (xMax - xMin), where the mean is over the length-1 feature slots |
| NormalizationFunction.ZScoreNormalize | src/main/java/me/darksidecode/lvq4j/NormalizationFunction.java:137-157 | validate first; each feature becomes (x - mean) / sqrt(population variance of the features) |
| NormalizationFunction.UnitLenScaleNormalize | src/main/java/me/darksidecode/lvq4j/NormalizationFunction.java:170-183 | validate first; each feature becomes x / sqrt(sum of the squared features) |
| NormalizationFunction.FeatureRange | src/main/java/me/darksidecode/lvq4j/NormalizationFunction.java:72-80 | the min/max loop gives the minimum of the features with Double.MAX_VALUE as the start value, and their maximum with Double.MIN_VALUE as the start value |
| NormalizationFunction.FeatureSum | src/main/java/me/darksidecode/lvq4j/NormalizationFunction.java:139-142 | the accumulating loop gives the sum of the feature slots |
| NormalizationFunction.FeatureSquares | src/main/java/me/darksidecode/lvq4j/NormalizationFunction.java:145-150 | the variance loop gives the sum of (x - a)^2 over the feature slots |
| NormalizationFunction.RescaleInPlace | src/main/java/me/darksidecode/lvq4j/NormalizationFunction.java:155-156 | the rewrite loop replaces each feature x by (x - shift) / scale and leaves the last slot and the length alone |
| NormalizationFunction.Normalize | src/main/java/me/darksidecode/lvq4j/NormalizationFunction.java:49 | any normalizer: the outcome is the validation's; on rejection the vector is unchanged, otherwise it equals Apply of the old vector; the label slot is never written |
| NormalizationFunction.FoldMinBounds | src/main/java/me/darksidecode/lvq4j/NormalizationFunction.java:72-80 | the running minimum is at most its start value and at most every element, and it equals either the start value or one of the elements |
| NormalizationFunction.FoldMaxBounds | src/main/java/me/darksidecode/lvq4j/NormalizationFunction.java:73-80 | the running maximum is at least its start value and at least every element, and it equals the start value or an element |
| NormalizationFunction.MinMaxSlot | src/main/java/me/darksidecode/lvq4j/NormalizationFunction.java:82-85 | when lo <= x <= hi and lo < hi, (x - lo) / (hi - lo) lies in [0, 1]; it is 0 at lo and 1 at hi |
| NormalizationFunction.MinMaxEndpoints | src/main/java/me/darksidecode/lvq4j/NormalizationFunction.java:72-85 | with a feature of at least Double.MIN_VALUE and two features that differ, MIN_MAX maps every feature into [0, 1], the smallest to 0 and the largest to 1 |
| NormalizationFunction.MinMaxAttained | src/main/java/me/darksidecode/lvq4j/NormalizationFunction.java:72-80 | under the same conditions, xMin and xMax are attained by two features, and xMin < xMax |
| NormalizationFunction.MinMaxNonPositiveFeatures | src/main/java/me/darksidecode/lvq4j/NormalizationFunction.java:73 | the Double.MIN_VALUE start of xMax shows: for features [0, -1] the largest feature 0 is not mapped to 1 |
| NormalizationFunction.FeaturesOfRescaled | src/main/java/me/darksidecode/lvq4j/NormalizationFunction.java:155-156 | the features of the rewritten vector are the old features with each one shifted and scaled |
| NormalizationFunction.SumShifted | src/main/java/me/darksidecode/lvq4j/NormalizationFunction.java:139-156 | the sum of the shifted and scaled features, times the scale, is the old sum minus count·shift |
| NormalizationFunction.SumSqShifted | src/main/java/me/darksidecode/lvq4j/NormalizationFunction.java:147-156 | the sum of squares of the shifted and scaled features, times scale², is the old sum of (x - shift)² |
| NormalizationFunction.SumScaled | src/main/java/me/darksidecode/lvq4j/NormalizationFunction.java:139-156 | for any vector whose entries times the scale are the old features minus the shift, its sum times the scale is the old sum minus count·shift |
| NormalizationFunction.SumSqScaled | src/main/java/me/darksidecode/lvq4j/NormalizationFunction.java:147-156 | for the same kind of vector, its sum of squares times scale² is the old sum of (x - shift)² |
| NormalizationFunction.CentredSum | src/main/java/me/darksidecode/lvq4j/NormalizationFunction.java:113-117 | subtracting the mean makes the features sum to 0, whatever the non-zero divisor |
| NormalizationFunction.UnitSquares | src/main/java/me/darksidecode/lvq4j/NormalizationFunction.java:152-156 | dividing the centred features by a standard deviation whose square is the variance makes the sum of their squares equal to the number of features |
| NormalizationFunction.MeanCentres | src/main/java/me/darksidecode/lvq4j/NormalizationFunction.java:98-118 | when xMax != xMin, MEAN leaves features that sum to 0 |
| NormalizationFunction.ZScoreCentres | src/main/java/me/darksidecode/lvq4j/NormalizationFunction.java:137-157 | with a non-zero standard deviation, Z_SCORE leaves features that sum to 0 |
| NormalizationFunction.ZScoreUnitVariance | src/main/java/me/darksidecode/lvq4j/NormalizationFunction.java:137-157 | with an exact square root, Z_SCORE leaves features whose squares sum to their count: the population variance is 1 |
| NormalizationFunction.UnitLenScaleUnitLength | src/main/java/me/darksidecode/lvq4j/NormalizationFunction.java:170-183 | with an exact, non-zero square root, UNIT_LEN_SCALE leaves features of Euclidean length 1 |
| NormalizationFunction.UnitLength | src/main/java/me/darksidecode/lvq4j/NormalizationFunction.java:179-182 | dividing the features by a length whose square is their sum of squares gives a sum of squares of 1 |
| DistanceMetric.ValidateInputVectors | src/main/java/me/darksidecode/lvq4j/DistanceMetric.java:146-153 | the first vector is validated, then the second, then the lengths are compared; the result is Pass exactly when both are non-empty and finite and have equal lengths |
| DistanceMetric.HammingDistance | src/main/java/me/darksidecode/lvq4j/DistanceMetric.java:65-74 | the accumulator loop counts the feature slots in [0, len-1) where the vectors differ, after validation |
| DistanceMetric.EuclideanDistanceSquare | src/main/java/me/darksidecode/lvq4j/DistanceMetric.java:88-98 | after validation, the accumulator loop sums the squared differences over [0, len-1) |
| DistanceMetric.EuclideanDistance | src/main/java/me/darksidecode/lvq4j/DistanceMetric.java:111-112 | sqrt of EUCLIDEAN_DISTANCE_SQUARE on the same inputs, with the same errors |
| DistanceMetric.ManhattanDistance | src/main/java/me/darksidecode/lvq4j/DistanceMetric.java:122-131 | after validation, the accumulator loop sums |difference| over [0, len-1) |
| DistanceMetric.Measure | src/main/java/me/darksidecode/lvq4j/DistanceMetric.java:46 | any metric: the result is the metric's value, and it is Ok exactly when the vectors are comparable |
| DistanceMetric.PairValidationCases | src/main/java/me/darksidecode/lvq4j/DistanceMetric.java:146-153 | the error order: the first vector's own error first, then the second's, then IllegalArgumentException for different lengths |
| DistanceMetric.ComparableExactly | src/main/java/me/darksidecode/lvq4j/DistanceMetric.java:146-153 | validation passes, and every metric gives a value, exactly when the pair is comparable; otherwise the error is IllegalArgumentException or ArithmeticException |
| DistanceMetric.MismatchesCount | src/main/java/me/darksidecode/lvq4j/DistanceMetric.java:69-71 | Hamming's accumulator equals the number of mismatching indices, and there are at most n of them |
| DistanceMetric.HammingRange | src/main/java/me/darksidecode/lvq4j/DistanceMetric.java:65-74 | Hamming lies in [0, n]; it is 0 exactly when the features agree and n exactly when they all differ |
| DistanceMetric.SquaredDiffsNonNegative | src/main/java/me/darksidecode/lvq4j/DistanceMetric.java:92-95 | the squared-difference sum is non-negative, and 0 only when the features agree |
| DistanceMetric.SquaredDiffsOfEqual | src/main/java/me/darksidecode/lvq4j/DistanceMetric.java:92-95 | agreeing features give a squared-difference sum of 0 |
| DistanceMetric.AbsDiffsNonNegative | src/main/java/me/darksidecode/lvq4j/DistanceMetric.java:127-128 | the Manhattan sum is non-negative, and 0 exactly when the features agree |
| DistanceMetric.AccumulationsSymmetric | src/main/java/me/darksidecode/lvq4j/DistanceMetric.java:69-128 | all three accumulations are symmetric in their two vectors |
| DistanceMetric.AccumulationsLocal | src/main/java/me/darksidecode/lvq4j/DistanceMetric.java:69-128 | the accumulations over [0, n) depend on the first n slots only |
| DistanceMetric.Symmetric | src/main/java/me/darksidecode/lvq4j/DistanceMetric.java:65-131 | every metric and its validation are symmetric |
| DistanceMetric.ZeroExactlyOnEqualFeatures | src/main/java/me/darksidecode/lvq4j/DistanceMetric.java:65-131 | Hamming, squared Euclidean and Manhattan are non-negative and 0 exactly on equal features; Euclidean is sqrt of squared Euclidean |
| DistanceMetric.LabelSlotIgnored | src/main/java/me/darksidecode/lvq4j/DistanceMetric.java:65-131 | vectors that differ only in the last (label) slot have the same distance to every vector, and distance 0 from each other |
| DistanceMetric.TriangleInequality | src/main/java/me/darksidecode/lvq4j/DistanceMetric.java:65-131 | Hamming and Manhattan satisfy the triangle inequality |
| WeightsInitializer.Rng.NextInt | src/main/java/me/darksidecode/lvq4j/WeightsInitializer.java:86 | a draw from the generator is below its bound and advances the draw counter by one |
| WeightsInitializer.RandomPicks | src/main/java/me/darksidecode/lvq4j/WeightsInitializer.java:83-92 | N_RANDOM picks k indices, each below the number of training rows |
| WeightsInitializer.UniquePicks | src/main/java/me/darksidecode/lvq4j/WeightsInitializer.java:106-118 | N_RANDOM_UNIQUE picks k indices from the pool of not-yet-removed indices |
| WeightsInitializer.RationalPicks | src/main/java/me/darksidecode/lvq4j/WeightsInitializer.java:152-166 | the rational sweep ends with at least k indices, all below the number of training rows |
| WeightsInitializer.InitialRows | src/main/java/me/darksidecode/lvq4j/WeightsInitializer.java:58-189 | each strategy gives exactly k rows (trainSamples) |
| WeightsInitializer.Gather | src/main/java/me/darksidecode/lvq4j/WeightsInitializer.java:68-71 | the copied table has row s equal to the first nFeatures slots of the training row picked for s |
| WeightsInitializer.FirstPicksAreFirst | src/main/java/me/darksidecode/lvq4j/WeightsInitializer.java:66-72 | N_FIRST picks 0, 1, …, k-1: distinct and in order |
| WeightsInitializer.RandomPicksInRange | src/main/java/me/darksidecode/lvq4j/WeightsInitializer.java:83-92 | N_RANDOM's pick s is draw(pos + s) mod the number of training rows, so it is in range |
| WeightsInitializer.RandomPicksMayRepeat | src/main/java/me/darksidecode/lvq4j/WeightsInitializer.java:83-92 | N_RANDOM allows repeats: a generator that always draws 0 picks row 0 twice |
| WeightsInitializer.UniquePicksDistinct | src/main/java/me/darksidecode/lvq4j/WeightsInitializer.java:106-118 | removing each drawn row from the list makes N_RANDOM_UNIQUE's picks pairwise distinct |
| WeightsInitializer.Removed | src/main/java/me/darksidecode/lvq4j/WeightsInitializer.java:112 | after removal the pool stays distinct and no longer holds the removed index |
| WeightsInitializer.IndicesDistinct | src/main/java/me/darksidecode/lvq4j/WeightsInitializer.java:107-108 | the initial copy of the list holds every index below n exactly once |
| WeightsInitializer.SweepFacts | src/main/java/me/darksidecode/lvq4j/WeightsInitializer.java:153-165 | one pass adds only unused indices, in increasing order, and at most one per label |
| WeightsInitializer.SweepPicksFirstUnused | src/main/java/me/darksidecode/lvq4j/WeightsInitializer.java:155-163 | a pass always adds the first unused index (its label set starts empty) |
| WeightsInitializer.UnusedIndex | src/main/java/me/darksidecode/lvq4j/WeightsInitializer.java:152-156 | while fewer than n distinct in-range indices are picked, an unused one exists |
| WeightsInitializer.DistinctCard | src/main/java/me/darksidecode/lvq4j/WeightsInitializer.java:150 | a distinct sequence has as many elements as its set |
| WeightsInitializer.SweepGrows | src/main/java/me/darksidecode/lvq4j/WeightsInitializer.java:152-166 | each pass of the while loop grows the results, and they stay distinct and in range: the termination measure of the sweep |
| WeightsInitializer.RationalPicksDistinct | src/main/java/me/darksidecode/lvq4j/WeightsInitializer.java:152-166 | the sweep terminates with at least k distinct, in-range indices and keeps the picks it started with: no index is added twice |
| WeightsInitializer.PicksBelow | src/main/java/me/darksidecode/lvq4j/WeightsInitializer.java:58-189 | every strategy picks in-range indices, and enough of them, except ZEROES, which picks none |
| WeightsInitializer.PicksDistinct | src/main/java/me/darksidecode/lvq4j/WeightsInitializer.java:66-189 | N_FIRST, N_RANDOM_UNIQUE and both rational strategies pick distinct rows |
| WeightsInitializer.RationalIgnoresGenerator | src/main/java/me/darksidecode/lvq4j/WeightsInitializer.java:140-189 | the shuffled copy is never read, so N_RANDOM_RATIONAL with any generator chooses the same rows as N_FIRST_RATIONAL |
| WeightsInitializer.RowsOf | src/main/java/me/darksidecode/lvq4j/WeightsInitializer.java:43-44 | the contents of an array of rows, one sequence per row |
| WeightsInitializer.CopyRow | src/main/java/me/darksidecode/lvq4j/WeightsInitializer.java:68-71 | one arraycopy sets weights[sample] to the prefix of the picked row and changes no other weight row and no training row |
| WeightsInitializer.ArrayCopy | src/main/java/me/darksidecode/lvq4j/WeightsInitializer.java:68-71 | System.arraycopy of n elements: the target starts with the source's first n elements and keeps the rest |
| WeightsInitializer.ZeroesInit | src/main/java/me/darksidecode/lvq4j/WeightsInitializer.java:58-59 | ZEROES leaves the weights untouched |
| WeightsInitializer.Initialize | src/main/java/me/darksidecode/lvq4j/WeightsInitializer.java:43-189 | any strategy: the weights become InitialRows of the training rows and the generator advances by DrawsUsed; the training rows are unchanged; under the rational strategies each weight row is a training row object |
| WeightsInitializer.CopiedTable | src/main/java/me/darksidecode/lvq4j/WeightsInitializer.java:66-118 | copied rows amount to Gather of the training rows |
| WeightsInitializer.SharedTable | src/main/java/me/darksidecode/lvq4j/WeightsInitializer.java:168-169 | aliased rows amount to Gather as well |
| WeightsInitializer.NFirstInit | src/main/java/me/darksidecode/lvq4j/WeightsInitializer.java:66-72 | weights[s] equals trainData[s] cut to nFeatures, element by element |
| WeightsInitializer.NRandomInit | src/main/java/me/darksidecode/lvq4j/WeightsInitializer.java:83-92 | weights[s] is a copy of the row RandomPicks chose; the generator advances by k |
| WeightsInitializer.NRandomUniqueInit | src/main/java/me/darksidecode/lvq4j/WeightsInitializer.java:106-118 | weights[s] is a copy of the row UniquePicks chose from the list of all indices; the generator advances by k |
| WeightsInitializer.UniqueSample | src/main/java/me/darksidecode/lvq4j/WeightsInitializer.java:110-117 | one turn of the N_RANDOM_UNIQUE loop removes a drawn row from the list and copies it |
| WeightsInitializer.Remove | src/main/java/me/darksidecode/lvq4j/WeightsInitializer.java:112 | list.remove(nextInt(size)): the element at the drawn index comes out, and the rest keep their order |
| WeightsInitializer.UniqueAdvance | src/main/java/me/darksidecode/lvq4j/WeightsInitializer.java:110-117 | the spec of the remaining picks after one removal |
| WeightsInitializer.Shuffle | src/main/java/me/darksidecode/lvq4j/WeightsInitializer.java:144-147 | Collections.shuffle permutes the list and draws len-1 times |
| WeightsInitializer.RationalInit | src/main/java/me/darksidecode/lvq4j/WeightsInitializer.java:140-170 | weights[s] is the very training row object RationalPicks chose (an alias, not a copy); the shuffle still advances the generator |
| WeightsInitializer.RationalResults | src/main/java/me/darksidecode/lvq4j/WeightsInitializer.java:149-166 | the while loop ends with at least k results, in the order RationalPicks gives |
| WeightsInitializer.OnePass | src/main/java/me/darksidecode/lvq4j/WeightsInitializer.java:153-165 | one pass of the for loop appends exactly the indices Sweep gives, and addedIndexes holds all picks |
| Training.Bmu | src/main/java/me/darksidecode/lvq4j/LVQNN.java:912-939 | the search over the first n prototypes: a winner is in range and comparable with the input vector |
| Training.BmuErrorStays | src/main/java/me/darksidecode/lvq4j/LVQNN.java:917-920 | a distance that throws ends the search with that exception |
| Training.BmuIsFirstMinimum | src/main/java/me/darksidecode/lvq4j/LVQNN.java:912-939 | the search succeeds exactly when every prototype is comparable; otherwise the error is the first failing prototype's. Without a winner the stored distance is Double.MAX_VALUE and no distance is below it; a winner b has the least distance, which is below Double.MAX_VALUE, and every earlier prototype is strictly farther: strict `<` means a tie goes to the first |
| Training.Moved | src/main/java/me/darksidecode/lvq4j/LVQNN.java:761-776 | the update keeps the row's length |
| Training.OnlyWinnerMoves | src/main/java/me/darksidecode/lvq4j/LVQNN.java:756-782 | one sample changes only the winner's row, which becomes Moved; every other prototype row is unchanged |
| Training.MovedGap | src/main/java/me/darksidecode/lvq4j/LVQNN.java:764-776 | for each feature, the gap sample - row is multiplied by (1 - rate) when the labels agree and by (1 + rate) when they differ; the label slot stays |
| Training.Attraction | src/main/java/me/darksidecode/lvq4j/LVQNN.java:773-776 | for a rate in [0, 1] the winner moves towards a sample of its own label and away from one of another label |
| Training.StepFacts | src/main/java/me/darksidecode/lvq4j/LVQNN.java:756-782 | one sample keeps the table's shape and labels, never lowers the error sum, and fails only with IllegalArgument, Arithmetic or NullPointer |
| Training.EpochFacts | src/main/java/me/darksidecode/lvq4j/LVQNN.java:753-782 | the rest of an epoch keeps shape and labels, never lowers the error sum, and has the same error kinds |
| Training.EpochErrorNonNegative | src/main/java/me/darksidecode/lvq4j/LVQNN.java:753-765 | an epoch's sum of squared errors is at least 0, and its table has the old shape |
| Training.Notify | src/main/java/me/darksidecode/lvq4j/LVQNN.java:849-860 | the listener call changes nothing but the recorded events: listener exceptions are swallowed |
| Training.Save | src/main/java/me/darksidecode/lvq4j/LVQNN.java:545-549 | saving a snapshot changes nothing but the events, and throws exactly when there is no serializer |
| Training.Advanced | src/main/java/me/darksidecode/lvq4j/LVQNN.java:788-794 | a completed epoch increments the epoch counter by exactly 1 |
| Training.Advance | src/main/java/me/darksidecode/lvq4j/LVQNN.java:788-811 | the same with the periodic snapshot |
| Training.LoopTurn | src/main/java/me/darksidecode/lvq4j/LVQNN.java:738-819 | one turn of the running, non-halted loop is an epoch, then the decay and bookkeeping, the periodic save and the listener call |
| Training.PowerStep | src/main/java/me/darksidecode/lvq4j/LVQNN.java:791 | momentum decay over a+1 epochs multiplies by one more factor |
| Training.AdvanceFacts | src/main/java/me/darksidecode/lvq4j/LVQNN.java:753-816 | one turn of the loop: shape, labels and epoch+1 facts; a stored error square of at least 0; the decayed rate; a Saved event only at an epoch that is a multiple of the period |
| Training.AdvancedStretch | src/main/java/me/darksidecode/lvq4j/LVQNN.java:788-794 | a completed epoch moves one epoch on, stores a non-negative error square and decays the learn rate by one step of momentum or of the linear schedule |
| Training.SaveStretch | src/main/java/me/darksidecode/lvq4j/LVQNN.java:807-811 | a snapshot at an epoch that is a multiple of the save period adds only a Saved event for that epoch |
| Training.NotifyStretch | src/main/java/me/darksidecode/lvq4j/LVQNN.java:815-816 | the listener call adds no Saved event and changes nothing else |
| Training.Chain | src/main/java/me/darksidecode/lvq4j/LVQNN.java:738-819 | the facts about one turn compose with the facts about the rest of the loop |
| Training.TrainLoopFacts | src/main/java/me/darksidecode/lvq4j/LVQNN.java:738-819 | from any state, the loop ends with the same table shape and labels as it started with. The epoch count grows only up to maxEpochs, and the stored error square is at least 0 once an epoch has run. Events are appended only, and snapshots are saved at multiples of a positive period. On the epochs run, the rate is the momentum power or the linear formula on the epoch before the increment. On Pass the loop stopped because it stopped running or the halt flag was set; on Fail it stopped with an epoch error |
| Training.TrainOutcomes | src/main/java/me/darksidecode/lvq4j/LVQNN.java:700-727 | train fails with IllegalStateException exactly when the weights are null or epoch 0 has a non-zero error (or epoch != 0 a zero error). A restored state with epoch >= maxEpochs or a base learnRate <= quitLearnRate returns with no change at all (the check reads learnRate, not currentLearnRate). Any other failure is an epoch error |
| Training.TrainFacts | src/main/java/me/darksidecode/lvq4j/LVQNN.java:700-832 | from a consistent start: shape, epoch bounds and the ordering of events. A negative period saves nothing; a period >= 0 ends a passing run with a final save. When the loop stops without a halt it is no longer running. From scratch without linear decay the rate is learnRate·momentum^epochs |
| Training.HaltStops | src/main/java/me/darksidecode/lvq4j/LVQNN.java:739-747 | a halt request before the first epoch leaves the weights, the epoch counter and the error unchanged. The halt flag ends set; when the loop was running the listener is told with finished=true. The rate is reset to learnRate only when the epoch is 0 |
| Lvqnn.NormalizeRowsFacts | src/main/java/me/darksidecode/lvq4j/LVQNN.java:482-493 | normalizing the first trainSamples rows keeps every row's length and label and leaves the rows from trainSamples on alone. On success each row is the normalizer's result; on failure the first failing row gives its error and the rows after it are untouched |
| Lvqnn.NormalizeRowsShape | src/main/java/me/darksidecode/lvq4j/LVQNN.java:482-493 | for any row normalization that keeps lengths and labels, the normalizeInput loop from row i to k keeps the number of rows, every row's length and label, and the rows outside i to k |
| Lvqnn.NormalizeRowsLabels | src/main/java/me/darksidecode/lvq4j/LVQNN.java:482-493 | for such a normalization, every row keeps its length and its label |
| Lvqnn.NormalizeRowsRest | src/main/java/me/darksidecode/lvq4j/LVQNN.java:482-493 | for any row normalization, the rows before i and from k on are left as they were |
| Lvqnn.NormalizeRowsPass | src/main/java/me/darksidecode/lvq4j/LVQNN.java:482-493 | for any row normalization, when no row fails each row from i to k is the normalization's result on the old row |
| Lvqnn.NormalizeRowsFail | src/main/java/me/darksidecode/lvq4j/LVQNN.java:482-493 | for any row normalization, on failure there is a first failing row f: the rows before it are normalized, the rows from it on are untouched and its exception is the outcome |
| NormalizationFunction.NormalizeOf | src/main/java/me/darksidecode/lvq4j/NormalizationFunction.java:69-183 | a vector the normalizer accepts has at least one slot, and its result has the same length and the same label slot |
| Lvqnn.ApplyKeepsLabel | src/main/java/me/darksidecode/lvq4j/NormalizationFunction.java:69-183 | every normalizer keeps the length and the last slot |
| Lvqnn.CopiedRows | src/main/java/me/darksidecode/lvq4j/LVQNN.java:621-628 | the table copied so far has the other model's length |
| Lvqnn.CopiedRowsWhole | src/main/java/me/darksidecode/lvq4j/LVQNN.java:621-628 | when every row has nFeatures slots, the full copy equals the other model's table: a deep copy |
| Lvqnn.ClassifyAnswers | src/main/java/me/darksidecode/lvq4j/LVQNN.java:881-893 | classify fails with IllegalArgumentException on an empty vector and IllegalStateException on an untrained model (error square 0); a failing search passes its error on, and no winner gives NullPointerException; otherwise the answer is (int) of the winner's last slot |
| Lvqnn.LabelsSurvive | src/main/java/me/darksidecode/lvq4j/LVQNN.java:761-776 | training keeps labels in range because it keeps the label slots |
| Lvqnn.Table | src/main/java/me/darksidecode/lvq4j/LVQNN.java:512 | a fresh array of fresh, distinct row arrays with the given contents |
| Lvqnn.ZeroTable | src/main/java/me/darksidecode/lvq4j/LVQNN.java:512 | `new double[k][n]`: k fresh, distinct zero rows |
| Lvqnn.InitialTable | src/main/java/me/darksidecode/lvq4j/LVQNN.java:512-514 | the weights the strategy produces over the training rows, with the generator's draws |
| Lvqnn.Histogram | src/main/java/me/darksidecode/lvq4j/LVQNN.java:520-524 | counting rows per label throws ArrayIndexOutOfBoundsException exactly when a label falls outside [0, trainSamples) |
| Lvqnn.Lvqnn.constructor | src/main/java/me/darksidecode/lvq4j/LVQNN.java:441-456 | stores the training table and trainSamples with the library's defaults |
| Lvqnn.Lvqnn.Create | src/main/java/me/darksidecode/lvq4j/LVQNN.java:441-456 | the constructor fails with IllegalArgumentException exactly on an empty table, an empty first vector or trainSamples outside [1, trainData.length], and stores nothing then; otherwise the model is valid with the default settings |
| Lvqnn.Lvqnn.NormalizeInput | src/main/java/me/darksidecode/lvq4j/LVQNN.java:482-493 | without a normalizer nothing changes; otherwise the first trainSamples rows are normalized in order, as NormalizeRows says, up to the first failure |
| Lvqnn.Lvqnn.InitializeWeights | src/main/java/me/darksidecode/lvq4j/LVQNN.java:508-533 | the weights become the strategy's rows, and the generator advances by the draws used. The outcome is Pass exactly when every label is below trainSamples; otherwise it is ArrayIndexOutOfBoundsException |
| Lvqnn.Lvqnn.Classify | src/main/java/me/darksidecode/lvq4j/LVQNN.java:881-893 | the answer is ClassifyOf, and the last winner distance is stored as the search's minimum |
| Lvqnn.Lvqnn.CopyBasicConfiguration | src/main/java/me/darksidecode/lvq4j/LVQNN.java:581-594 | self-copy throws and changes nothing; otherwise the generator, both periods, the yield flag, the rates, the decay mode, momentum and maxEpochs take the other model's values |
| Lvqnn.Lvqnn.CopyInternals | src/main/java/me/darksidecode/lvq4j/LVQNN.java:609-632 | self-copy throws and changes nothing. A feature-count or length mismatch throws IllegalArgumentException before any change. Otherwise both error measures are copied, then the weights are copied row by row; null weights in the other model throw NullPointerException with this model's weights, epoch and rate unchanged. A short row fails at that row; a completed copy also takes the epoch and the rate |
| Lvqnn.Lvqnn.Halt | src/main/java/me/darksidecode/lvq4j/LVQNN.java:643-648 | the halt flag is set and nothing else changes |
| Lvqnn.Lvqnn.CallStateUpdateListenerSafely | src/main/java/me/darksidecode/lvq4j/LVQNN.java:849-860 | the state becomes Notify of the old state |
| Lvqnn.Lvqnn.SaveSnapshot | src/main/java/me/darksidecode/lvq4j/LVQNN.java:545-549 | the state and outcome are Save of the old state |
| Lvqnn.Lvqnn.FindBestMatchingUnit | src/main/java/me/darksidecode/lvq4j/LVQNN.java:912-939 | the result is the search's winner index (or its error), and lastWinnerDistance is the minimum found |
| Lvqnn.Lvqnn.MoveUnit | src/main/java/me/darksidecode/lvq4j/LVQNN.java:761-779 | the feature loop turns the winner's row into Moved and adds its squared errors to the sum; no other row changes |
| Lvqnn.Lvqnn.TrainSample | src/main/java/me/darksidecode/lvq4j/LVQNN.java:756-782 | one sample of the epoch loop is Step of the old state |
| Lvqnn.Lvqnn.RunEpoch | src/main/java/me/darksidecode/lvq4j/LVQNN.java:753-782 | the epoch's table, error sum, winner distance and outcome are Epoch of the old state |
| Lvqnn.Lvqnn.Train | src/main/java/me/darksidecode/lvq4j/LVQNN.java:700-832 | the final state (weights, epoch, rate, error square, winner distance, halt flag, events) and outcome are TrainSpec of the old state |
| Lvqnn.Lvqnn.Learn | src/main/java/me/darksidecode/lvq4j/LVQNN.java:753-794 | a completed epoch makes the state Advanced of the old one; a failed epoch changes only the weights and the winner distance |
| Lvqnn.Lvqnn.Loop | src/main/java/me/darksidecode/lvq4j/LVQNN.java:738-819 | the final state and outcome of the while loop are TrainLoop of the state it starts from |
| Lvqnn.Lvqnn.Epochs | src/main/java/me/darksidecode/lvq4j/LVQNN.java:748-817 | one turn of the loop follows TrainLoop: a failure ends it with TrainLoop's result, and a pass increments the epoch by one |
| ModelBuilder.CollectFacts | src/main/java/me/darksidecode/lvq4j/ModelBuilder.java:68-83 | collecting the records succeeds exactly when no record is null, empty or of a length other than the first's; then the rows are the records' vectors, all of one non-zero length; otherwise the first bad record gives its error (NullPointerException or IllegalArgumentException) |
| ModelBuilder.CollectErrorStays | src/main/java/me/darksidecode/lvq4j/ModelBuilder.java:68-83 | the first bad record ends the collection |
| ModelBuilder.ModelBuilder.constructor | src/main/java/me/darksidecode/lvq4j/ModelBuilder.java:37-47 | an empty builder: no model, no samples, no decay method chosen |
| ModelBuilder.ModelBuilder.WithTrainData | src/main/java/me/darksidecode/lvq4j/ModelBuilder.java:55-89 | a second model is refused with IllegalStateException. An empty list is refused with IllegalArgumentException, and a bad record with its own error; otherwise the model is created from the collected rows and the list is stored |
| ModelBuilder.ModelBuilder.WithInputNormalizationFunc | src/main/java/me/darksidecode/lvq4j/ModelBuilder.java:94-100 | IllegalStateException before withTrainData; otherwise sets the normalizer |
| ModelBuilder.ModelBuilder.WithWeightsInitializer | src/main/java/me/darksidecode/lvq4j/ModelBuilder.java:106-112 | IllegalStateException before withTrainData; otherwise sets the strategy |
| ModelBuilder.ModelBuilder.WithDistanceMetric | src/main/java/me/darksidecode/lvq4j/ModelBuilder.java:118-124 | IllegalStateException before withTrainData; otherwise sets the metric |
| ModelBuilder.ModelBuilder.WithRandomNumberGenerator | src/main/java/me/darksidecode/lvq4j/ModelBuilder.java:138-144 | IllegalStateException before withTrainData; otherwise sets the generator |
| ModelBuilder.ModelBuilder.WithRandomNumberGeneratorSeed | src/main/java/me/darksidecode/lvq4j/ModelBuilder.java:130-132 | IllegalStateException before withTrainData; otherwise installs a fresh generator over the seeded draws |
| ModelBuilder.ModelBuilder.WithSerializer | src/main/java/me/darksidecode/lvq4j/ModelBuilder.java:149-155 | IllegalStateException before withTrainData; otherwise sets or clears the serializer |
| ModelBuilder.ModelBuilder.WithSnapshotAutoSavePeriod | src/main/java/me/darksidecode/lvq4j/ModelBuilder.java:163-177 | IllegalStateException without a model or without a serializer; a period below -1 is IllegalArgumentException; a rejected call keeps the period; otherwise sets it |
| ModelBuilder.ModelBuilder.WithProgressReportPeriod | src/main/java/me/darksidecode/lvq4j/ModelBuilder.java:183-193 | IllegalStateException without a model; a negative period is refused and kept unchanged; otherwise sets it |
| ModelBuilder.ModelBuilder.WithModelStateListener | src/main/java/me/darksidecode/lvq4j/ModelBuilder.java:198-204 | IllegalStateException before withTrainData; otherwise sets or clears the listener |
| ModelBuilder.ModelBuilder.WithYieldingTrainThread | src/main/java/me/darksidecode/lvq4j/ModelBuilder.java:209-215 | IllegalStateException before withTrainData; otherwise sets the yield flag |
| ModelBuilder.ModelBuilder.WithLearnRate | src/main/java/me/darksidecode/lvq4j/ModelBuilder.java:221-231 | IllegalStateException without a model; a rate outside (0, 1] is refused and kept unchanged; otherwise sets it |
| ModelBuilder.ModelBuilder.WithQuitLearnRate | src/main/java/me/darksidecode/lvq4j/ModelBuilder.java:237-247 | IllegalStateException without a model; a value outside (0, 1) is refused and kept unchanged; otherwise sets it |
| ModelBuilder.ModelBuilder.WithLinearLearnRateDecay | src/main/java/me/darksidecode/lvq4j/ModelBuilder.java:255-267 | IllegalStateException without a model or once a decay method was chosen; otherwise linear decay is on and the choice is recorded |
| ModelBuilder.ModelBuilder.WithMomentumLearnRateDecay | src/main/java/me/darksidecode/lvq4j/ModelBuilder.java:278-295 | IllegalStateException without a model or once a decay method was chosen. A momentum outside (0, 1) is refused, the flag stays unset and the model is unchanged; otherwise linear decay is off, the momentum is set and the choice is recorded |
| ModelBuilder.ModelBuilder.WithMaxEpochs | src/main/java/me/darksidecode/lvq4j/ModelBuilder.java:301-311 | IllegalStateException without a model; a value below 1 is refused and kept unchanged; otherwise sets it |
| ModelBuilder.ModelBuilder.Build | src/main/java/me/darksidecode/lvq4j/ModelBuilder.java:317-319 | the model and the sample list; with no model, NullPointerException (the wrapper's model is non-null) |
| BasicDataRecord.Pieces | src/main/java/me/darksidecode/lvq4j/BasicDataRecord.java:177 | the split of a string at its commas has at least one piece |
| BasicDataRecord.Shown | src/main/java/me/darksidecode/lvq4j/BasicDataRecord.java:151-152 | the printed slots, one token per slot, in order |
| BasicDataRecord.LabelOf | src/main/java/me/darksidecode/lvq4j/BasicDataRecord.java:198-223 | a numeric token is rejected exactly when it is not a finite whole non-negative number, a non-numeric one exactly when the text→id translation fails; otherwise the label slot holds the label id, which is the parsed number or the translated id |
| BasicDataRecord.ParseInto | src/main/java/me/darksidecode/lvq4j/BasicDataRecord.java:183-195 | the feature loop writes the parsed features by index and stops at the first token that is no number, leaving zeros behind it |
| BasicDataRecord.BasicDataRecord.Empty | src/main/java/me/darksidecode/lvq4j/BasicDataRecord.java:62 | the default constructor leaves the label text, the label id (-1) and the data unset |
| BasicDataRecord.BasicDataRecord.constructor | src/main/java/me/darksidecode/lvq4j/BasicDataRecord.java:75-88 | an initialized record over the caller's array |
| BasicDataRecord.BasicDataRecord.Create | src/main/java/me/darksidecode/lvq4j/BasicDataRecord.java:75-88 | IllegalArgumentException exactly on an empty label text, a negative label id or an empty data vector; otherwise the record is initialized and shares the given array |
| BasicDataRecord.BasicDataRecord.SaveToString | src/main/java/me/darksidecode/lvq4j/BasicDataRecord.java:144-158 | an uninitialized record throws IllegalStateException; an empty vector throws at deleteCharAt; otherwise the result is the slots printed and joined by ',', with no trailing comma |
| BasicDataRecord.BasicDataRecord.LoadFromString | src/main/java/me/darksidecode/lvq4j/BasicDataRecord.java:173-227 | a record with any field set throws IllegalStateException and changes nothing; otherwise the new state (data, label id, label text) and the outcome are LoadOf's, including the partly filled array after a failure |
| BasicDataRecord.BasicDataRecord.Equals | src/main/java/me/darksidecode/lvq4j/BasicDataRecord.java:265-287 | IllegalStateException when this record is not initialized. false for null or another implementation class. IllegalStateException when the other record is not initialized. Otherwise true exactly when the label ids agree and the data vectors have one length and equal elements, where NaN equals nothing; labelText is not compared |
| BasicDataRecord.TrailingIsJoin | src/main/java/me/darksidecode/lvq4j/BasicDataRecord.java:150-155 | the StringBuilder with its last comma deleted is the comma join |
| BasicDataRecord.FeaturesFailureStays | src/main/java/me/darksidecode/lvq4j/BasicDataRecord.java:186-195 | a feature that fails to parse ends the loop there |
| BasicDataRecord.PiecesOfJoin | src/main/java/me/darksidecode/lvq4j/BasicDataRecord.java:177 | splitting the join of comma-free tokens at every comma gives the tokens back |
| BasicDataRecord.SplitOfJoin | src/main/java/me/darksidecode/lvq4j/BasicDataRecord.java:177 | String.split(",") of the join of two or more non-empty, comma-free tokens gives the tokens back |
| BasicDataRecord.OneSlotDoesNotLoad | src/main/java/me/darksidecode/lvq4j/BasicDataRecord.java:177-181 | the text of a one-slot record is a single token, which loadFromString refuses with IllegalArgumentException |
| BasicDataRecord.FeaturesRoundTrip | src/main/java/me/darksidecode/lvq4j/BasicDataRecord.java:186-195 | when parsing inverts printing, the feature loop restores every printed feature |
| BasicDataRecord.RoundTrip | src/main/java/me/darksidecode/lvq4j/BasicDataRecord.java:144-227 | when parsing inverts printing, a vector of two or more slots whose last slot holds a non-negative label id loads back into a blank record with the same data and label id; the label text is labelIdToLabelText of that id |
| BasicDataRecord.SameDataFacts | src/main/java/me/darksidecode/lvq4j/BasicDataRecord.java:277-281 | element-wise equality is symmetric, and a vector equals itself exactly when it holds no NaN |
| AppendableDataRecord.FirstFree | src/main/java/me/darksidecode/lvq4j/AppendableDataRecord.java:127-133 | nextIndex: -1 exactly when no slot is NaN; otherwise a NaN slot with no NaN before it |
| AppendableDataRecord.AppendOf | src/main/java/me/darksidecode/lvq4j/AppendableDataRecord.java:69-82 | append refuses a NaN or infinite value with IllegalArgumentException, and then a full vector with IllegalStateException; otherwise only the first NaN slot changes, to the value |
| AppendableDataRecord.Fresh | src/main/java/me/darksidecode/lvq4j/AppendableDataRecord.java:53-145 | the new vector has nFeatures + 1 slots, the last holding the label id |
| AppendableDataRecord.AppendableDataRecord.constructor | src/main/java/me/darksidecode/lvq4j/AppendableDataRecord.java:37 | the appendable view of a basic record |
| AppendableDataRecord.AppendableDataRecord.Create | src/main/java/me/darksidecode/lvq4j/AppendableDataRecord.java:53-56 | NegativeArraySizeException for a negative length, including the int overflow of nFeatures + 1. IllegalArgumentException for an empty label text, a negative label id or a zero length. Otherwise an initialized record of nFeatures NaN slots followed by the label id |
| AppendableDataRecord.AppendableDataRecord.NextIndex | src/main/java/me/darksidecode/lvq4j/AppendableDataRecord.java:127-133 | the scanning loop gives FirstFree of the data; unset data throws NullPointerException |
| AppendableDataRecord.AppendableDataRecord.IsFilled | src/main/java/me/darksidecode/lvq4j/AppendableDataRecord.java:116-118 | true exactly when no slot is NaN |
| AppendableDataRecord.AppendableDataRecord.Append | src/main/java/me/darksidecode/lvq4j/AppendableDataRecord.java:69-82 | a NaN or infinite value is refused before the data is looked at; otherwise the data becomes AppendOf, or stays unchanged with AppendOf's error |
| AppendableDataRecord.AppendableDataRecord.Set | src/main/java/me/darksidecode/lvq4j/AppendableDataRecord.java:96-108 | the index is checked against [0, len-1) first (ArrayIndexOutOfBoundsException), then the value (IllegalArgumentException); otherwise only slot i changes |
| AppendableDataRecord.FirstFreeOf | src/main/java/me/darksidecode/lvq4j/AppendableDataRecord.java:129-131 | a NaN slot with only numbers before it is the one nextIndex returns |
| AppendableDataRecord.AppendStep | src/main/java/me/darksidecode/lvq4j/AppendableDataRecord.java:69-82 | one append to a partly filled vector fills the next feature slot |
| AppendableDataRecord.AppendedFills | src/main/java/me/darksidecode/lvq4j/AppendableDataRecord.java:69-82 | appending m values to a vector with m free feature slots fills them in order |
| AppendableDataRecord.FillNew | src/main/java/me/darksidecode/lvq4j/AppendableDataRecord.java:53-82 | exactly nFeatures accepted appends to a new record give the values followed by the label, after which the record is filled and one more append throws IllegalStateException |
| AppendableDataRecord.SetKeepsLabel | src/main/java/me/darksidecode/lvq4j/AppendableDataRecord.java:96-108 | set never writes the label slot |

## Left out

- Logging, console output, timing (`System.currentTimeMillis`) and the progress report of `train` (LVQNN.java:798-805): they do not affect the state.
- `Thread.yield` and the `volatile` halt flag: no concurrency is modelled. `Halt` is a method, and a halt raised by another thread during `train` is the `requests` function, read before each epoch.
- The serializer and the listener: only whether they are present is modelled, and each call is recorded as an event. `restoreFromSnapshot` (LVQNN.java:562-567) only hands the model to the serializer, so it is not modelled. Listener exceptions are swallowed by the source, so a listener call cannot fail.
- ModelWrapper.java is not part of this model: it checks the sizes and calls normalize, initialize and train in sequence. `Build` returns the pair it would wrap.
- IEEE-754 arithmetic: rounding, signed zeros, and NaN or infinity propagation through arithmetic. Real arithmetic stands in for double arithmetic. A division by zero is an out-of-range value (`Doubles.DivDouble`), and the model claims nothing about the exact NaN-or-infinity it gives.
- Doubles.Trunc: does not model the saturation of Java's `(int)` cast at the int range; for labels beyond it the model's answer is the unbounded truncation.
- `java.util.Random` and `Collections.shuffle` internals: `Shuffle` is proved to permute its list and to use len-1 draws, but the order it gives is not the JDK's.
- The training rows are values (`seq<seq<real>>`) in the engine class. The rational strategies return training row objects themselves, so in Java training later moves those training rows too. `WeightsInitializer.RationalInit` proves the aliasing on arrays, but `Lvqnn.Lvqnn.Train` does not model that training rows change through shared prototypes.
- Lvqnn.Lvqnn.Train: requires all training rows to have the first row's length; Lvqnn.Lvqnn.InitializeWeights, Lvqnn.Lvqnn.RunEpoch, Lvqnn.Lvqnn.Loop, Lvqnn.Lvqnn.Learn and Lvqnn.Lvqnn.Epochs carry the same requirement. The constructor does not check this (LVQNN.java:445 leaves it to the caller); ModelBuilder.WithTrainData does check it.
- Lvqnn.Lvqnn.InitializeWeights: the per-label counts of the debug histogram (LVQNN.java:520-532) are logged only; the model keeps just the ArrayIndexOutOfBoundsException that counting throws for a label outside [0, trainSamples).
- Lvqnn.Lvqnn.CopyInternals: requires both models to be valid, as every LVQNN object made by its constructor is.
- The getters and setters of LVQNN, and `toString` of the records, are not modelled separately; the model's fields are read and written directly.
- BasicDataRecord.BasicDataRecord.constructor and BasicDataRecord.BasicDataRecord.Create share the caller's array instead of copying it, as the source does; later writes to the array change the record.
- BasicDataRecord.RoundTrip: requires parsing to invert printing for the record's slots, and printed tokens to be non-empty and comma-free; the text formats of `Double.toString` and `Double.parseDouble` are not modelled. A one-slot record does not load back (`OneSlotDoesNotLoad`).
- The class of a record implementation, which `equals` compares through `getClass()`, is a `kind` string.
- Any claim that training converges or that the error decreases: nothing in the code guarantees it.
