# DTID dashboard: spatial analysis, data store and GIS bounds in Dafny

This project models the computational core of the drug-trafficking intelligence dashboard, in three parts.

- **The spatial engine** (`src/utils/spatialAnalysis.js`). It covers:
  - the Getis-Ord Gi* hotspot analysis, with its significance tiers and summary;
  - the adaptive distance threshold;
  - the binary and inverse-distance spatial weight matrices;
  - the KDE grid, its density pass and its normalisation;
  - Silverman's bandwidth and its guard;
  - the Gaussian and Epanechnikov kernels;
  - the confidence-interval labels;
  - the point preparation done by `performSpatialAnalysis`.
- **The local data store** (`src/store/useStore.js`). It covers the `getNext*Id` helpers, every add, delete and update action on the local tables, `getStats`, `getCasesForPerson`, `getNetworkConnections`, `resetData`, and the theme store's `toggleTheme` and `setTheme`.
- **The GIS helpers** (`src/services/gisService.js`): `calculateBounds` and `getGeometryType`.

## How the model is built

- **Pure functions** are Dafny functions over datatypes.
- **Loops** become methods whose `ensures` ties the result to a specification function. This covers the weight matrices, the nearest-neighbour scan, the grid, the density and normalisation passes over an array of cells, the Gi* loop, the id numbering and the bounds accumulator.
- **Properties** the source promises are proved as lemmas about those specification functions.
- **Both stores are classes.**
  - `Store.DataStore` holds the eight tables as `seq` fields. Each action replaces them in one step, as zustand's `set` does, and each method states its new state as a specification function of the old one. Its invariant `Valid` says that every table's ids are unique.
  - `Store.ThemeStore` holds the theme.
- **Floating point is not modelled.**
  - Arithmetic is over `real`.
  - The great-circle distance, `Math.sqrt`, `Math.exp` and `Math.pow` are fields of a `Numerics.Math` value passed to every operation.
  - The predicate `Numerics.Sound` lists the only facts about them that the proofs use. The distance is zero on equal points, symmetric and non-negative; the square root is non-negative and vanishes only at 0; the exponential is positive, with exp(0) = 1; a positive base raised to any power is positive.
- **Missing values.** JavaScript's optional and falsy values are explicit. `Option` stands for "not given". `Points.Scalar` and `Store.Val` carry the truthiness rules of `||` and `??`.
- **Timestamps.** `new Date().toISOString()` becomes a `now` parameter.

Two options have no effect in the code, and the model follows it:
- `performGetisOrdGiStar` reads a `weightType` option and never uses it, so Gi* always builds binary weights (`GiStar.WeightTypeIgnored`).
- `performSpatialAnalysis` passes no kernel to `performKDE`, so the combined analysis always uses the Gaussian kernel (`Analysis.KdeOverPreparedPoints`).

## Model

| member | source | states |
|---|---|---|
| Numerics.Mean | src/utils/spatialAnalysis.js:46 | the mean of a non-empty list, its sum over its length; for constant data it is that constant (`Numerics.ConstantHasZeroDeviations`) |
| Numerics.SquaredDeviations | src/utils/spatialAnalysis.js:51-55 | one squared deviation from the mean per value, in order |
| Numerics.StdDev | src/utils/spatialAnalysis.js:51-55 | the population standard deviation, the square root of the mean squared deviation; never negative and 0 exactly for constant data (`Numerics.StdDevNonNegative`, `Numerics.ZeroStdDevIffConstant`) |
| Numerics.SumNonNegative | src/utils/spatialAnalysis.js:51-55 | a sum of non-negative terms is non-negative, and it is 0 exactly when every term is 0 |
| Numerics.SumOfConstant | src/utils/spatialAnalysis.js:46 | the sum of n copies of c is n·c |
| Numerics.SquaresNonNegative | src/utils/spatialAnalysis.js:51-55 | every squared deviation is non-negative |
| Numerics.StdDevNonNegative | src/utils/spatialAnalysis.js:51-55 | the standard deviation is never negative |
| Numerics.ConstantHasZeroDeviations | src/utils/spatialAnalysis.js:46-55 | for constant data the mean is that constant and the squared deviations sum to 0 |
| Numerics.ZeroDeviationsMeanConstant | src/utils/spatialAnalysis.js:51-55 | squared deviations that sum to 0 force every value to equal the mean |
| Numerics.ZeroStdDevIffConstant | src/utils/spatialAnalysis.js:51-55 | the standard deviation is 0 if and only if all values are equal (the condition behind the S === 0 guard) |
| Numerics.ProductZero | src/utils/spatialAnalysis.js:51-55 | a zero product has a zero factor |
| Numerics.SquareZero | src/utils/spatialAnalysis.js:51-55 | a zero square has a zero root |
| Numerics.Erf | src/utils/spatialAnalysis.js:60-75 | sign(x)·(1 − poly(t)·exp(−x²)) with t = 1/(1 + p·\|x\|), the Abramowitz–Stegun coefficients; odd away from 0 (`Numerics.ErfOdd`) |
| Numerics.ErfOdd | src/utils/spatialAnalysis.js:60-75 | the error-function approximation is odd away from 0 |
| Numerics.ZScoreToPValue | src/utils/spatialAnalysis.js:80-82 | the two-tailed p-value 1 − erf(abs(z) / √2) with the approximated error function; symmetric in z and 0.999999999 at z = 0 (`Numerics.PValueSymmetric`, `Numerics.PValueAtZero`) |
| Numerics.PValueSymmetric | src/utils/spatialAnalysis.js:80-82 | the two-tailed p-value depends only on abs(z) |
| Numerics.PValueAtZero | src/utils/spatialAnalysis.js:60-82 | computed from z = 0 the p-value is 0.999999999, the sum of the coefficients, and not exactly 1 |
| Numerics.GaussianKernel | src/utils/spatialAnalysis.js:91-94 | the Gaussian kernel exp(−u²/2) / (h·√(2π)) with u = d / h; its sign is the bandwidth's (`Numerics.KernelsNonNegative`, `Numerics.KernelsNonPositive`) |
| Numerics.EpanechnikovKernel | src/utils/spatialAnalysis.js:99-105 | ¾·(1 − u²) / h inside one bandwidth and 0 outside (`Numerics.EpanechnikovCompactSupport`) |
| Numerics.KernelsNonNegative | src/utils/spatialAnalysis.js:91-105 | with a positive bandwidth the Gaussian kernel is positive and the Epanechnikov kernel non-negative |
| Numerics.KernelsNonPositive | src/utils/spatialAnalysis.js:91-105 | with a negative bandwidth the Gaussian kernel is negative and the Epanechnikov kernel non-positive |
| Numerics.EpanechnikovCompactSupport | src/utils/spatialAnalysis.js:99-105 | the Epanechnikov kernel is 0 beyond one bandwidth |
| Points.Lats | src/utils/spatialAnalysis.js:132-146 | the latitudes of the points, one per point, in order |
| Points.Lngs | src/utils/spatialAnalysis.js:132-146 | the longitudes of the points, one per point, in order |
| Lists.MinOf | src/utils/spatialAnalysis.js:166-171 | `Math.min(...)` of a non-empty list: a lower bound that some element attains |
| Lists.MaxOf | src/utils/spatialAnalysis.js:166-171 | `Math.max(...)` of a non-empty list: an upper bound that some element attains |
| Classification.Classify | src/utils/spatialAnalysis.js:411-432 | each of the seven tiers holds exactly on its z-interval (±1.65, ±1.96, ±2.58, boundaries inclusive toward the tails), in both directions |
| Classification.Confidence | src/utils/spatialAnalysis.js:411-432 | the confidence is 0, 90, 95 or 99; it is 0 exactly for "not significant" and 99 exactly for the two 99 % tiers |
| Classification.ClassificationLabel | src/utils/spatialAnalysis.js:606-614 | the label of a z-score is the confidence-interval label of its tier |
| Classification.FlagsMatchTiers | src/utils/spatialAnalysis.js:411-446 | `isHotspot` and `isColdspot` never both hold, each holds exactly on its three tiers, and neither holds exactly when the tier is "not significant" |
| Classification.TallyPartitions | src/utils/spatialAnalysis.js:450-463 | the seven counters add up to the number of points, and the hotspot and coldspot totals count the flagged points |
| Classification.TallyTotal | src/utils/spatialAnalysis.js:450-463 | the seven counters add up to the number of points |
| Classification.TallyFlags | src/utils/spatialAnalysis.js:450-463 | the three hot counters sum to the number of hotspots, and the three cold counters to the number of coldspots |
| Classification.FlagSplits | src/utils/spatialAnalysis.js:411-432 | every point is exactly one of hot, cold or neither |
| Classification.HotSplits | src/utils/spatialAnalysis.js:411-432 | the hot points split into the 99, 95 and 90 bands |
| Classification.ColdSplits | src/utils/spatialAnalysis.js:411-432 | the cold points split into the 90, 95 and 99 bands |
| Classification.TallyCountsTiers | src/utils/spatialAnalysis.js:450-463 | each counter is the number of z-scores whose tier it names |
| Weights.GiRow | src/utils/spatialAnalysis.js:363-379 | a 0/1 row whose entry j is 1 exactly when point j is within the threshold |
| Weights.GiWeights | src/utils/spatialAnalysis.js:363-379 | an n×n matrix of 0/1 rows |
| Weights.BuildGiWeights | src/utils/spatialAnalysis.js:363-379 | the nested loop builds exactly the Gi* weight matrix |
| Weights.GiDiagonal | src/utils/spatialAnalysis.js:363-379 | with a non-negative threshold every point is its own neighbour |
| Weights.GiNegativeThresholdEmpty | src/utils/spatialAnalysis.js:363-379 | with a negative threshold no pair is a neighbour |
| Weights.GiSymmetric | src/utils/spatialAnalysis.js:363-379 | the Gi* matrix is symmetric |
| Weights.SpatialRow | src/utils/spatialAnalysis.js:219-240 | a 0/1 row with 1 on the diagonal |
| Weights.SpatialWeights | src/utils/spatialAnalysis.js:219-240 | an n×n matrix of 0/1 rows with a unit diagonal |
| Weights.CalculateSpatialWeights | src/utils/spatialAnalysis.js:219-240 | the nested loop builds exactly the binary weight matrix |
| Weights.SpatialMatchesGi | src/utils/spatialAnalysis.js:219-240 | for a non-negative threshold the binary matrix equals the Gi* matrix; for a negative one they differ exactly on the diagonal |
| Weights.InverseRow | src/utils/spatialAnalysis.js:245-269 | one weight per point |
| Weights.InverseDistanceWeights | src/utils/spatialAnalysis.js:245-269 | an n×n matrix |
| Weights.CalculateInverseDistanceWeights | src/utils/spatialAnalysis.js:245-269 | the nested loop builds exactly the inverse-distance matrix |
| Weights.InverseWeightsSupport | src/utils/spatialAnalysis.js:245-269 | every weight is non-negative and symmetric, and it is positive exactly on the diagonal or for a pair at a positive distance within the threshold |
| Weights.BinaryRowSums | src/utils/spatialAnalysis.js:382-405 | for a 0/1 row the sum of squares equals the sum, which lies in [0, n] and is at least 1 when some entry is 1 |
| Weights.AllOnesSums | src/utils/spatialAnalysis.js:382-405 | an all-ones row sums to n, and so do its squares |
| Weights.AllOnesWeightedSum | src/utils/spatialAnalysis.js:382-405 | an all-ones row weights every value by 1 |
| Threshold.NearestUpTo | src/utils/spatialAnalysis.js:494-500 | the nearest other point among the first k: absent only when there is none, a lower bound on those distances, and attained |
| Threshold.AdaptiveThreshold | src/utils/spatialAnalysis.js:476-515 | 10 km for fewer than two points; otherwise a value clamped to [1, 15] that is at most both candidates (2.5 × the mean nearest distance, a quarter of the diagonal) floored at 1, at least one of them or 15, and, above 1, equal to one of them or to 15: together the floored minimum of the three |
| Threshold.NearestNeighbours | src/utils/spatialAnalysis.js:492-503 | with two or more points every point has a nearest neighbour, and the total nearest distance is non-negative |
| Threshold.NearestDistance | src/utils/spatialAnalysis.js:494-500 | the inner loop finds the nearest other point's distance |
| Threshold.TotalNearestDistance | src/utils/spatialAnalysis.js:492-502 | the outer loop sums the nearest distances |
| Threshold.CalculateAdaptiveThreshold | src/utils/spatialAnalysis.js:476-515 | the method returns the adaptive threshold |
| Kde.Grid | src/utils/spatialAnalysis.js:110-127 | (resolution + 1)² cells |
| Kde.RowMajorIndex | src/utils/spatialAnalysis.js:110-127 | the row-major position i·w + j is in range and decodes back to (i, j) |
| Kde.GridIndexing | src/utils/spatialAnalysis.js:110-127 | cell i·(res + 1) + j is at row i, column j, with latitude minLat + i·latStep and longitude minLng + j·lngStep |
| Kde.GenerateGrid | src/utils/spatialAnalysis.js:110-127 | the nested loop builds exactly that grid |
| Kde.OptimalBandwidth | src/utils/spatialAnalysis.js:132-146 | Silverman's rule: 1 for fewer than two points, else 1.06 × the mean of the two coordinate deviations × n^(−1/5) × 111 (`Kde.OptimalBandwidthSign`) |
| Kde.OptimalBandwidthSign | src/utils/spatialAnalysis.js:132-146 | Silverman's bandwidth is never negative; it is 0 exactly when there are at least two points and all share one position |
| Kde.DensityNonNegative | src/utils/spatialAnalysis.js:183-191 | with unit weights and a non-negative bandwidth a density is non-negative |
| Kde.DensityNonPositive | src/utils/spatialAnalysis.js:183-191 | with unit weights and a negative bandwidth no density is positive |
| Kde.Normalized | src/utils/spatialAnalysis.js:194-200 | 0 when the maximum is not positive; in [0, 1] for a density between 0 and the maximum; 1 at the maximum |
| Kde.Densities | src/utils/spatialAnalysis.js:183-191 | one density per cell |
| Kde.Annotated | src/utils/spatialAnalysis.js:183-200 | one annotated cell per grid cell |
| Kde.KdeCells | src/utils/spatialAnalysis.js:166-180 | the grid has (resolution + 1)² > 0 cells |
| Kde.KdeDensities | src/utils/spatialAnalysis.js:183-191 | one density per grid cell |
| Kde.Kde | src/utils/spatialAnalysis.js:152-210 | no points give the empty result with zero bounds; otherwise the grid has (resolution + 1)² cells |
| Kde.DensityAt | src/utils/spatialAnalysis.js:183-191 | the loop over the points computes the density of one cell |
| Kde.FillDensities | src/utils/spatialAnalysis.js:183-191 | the first pass writes each cell's density into the array, in place |
| Kde.NormalizeGrid | src/utils/spatialAnalysis.js:194-200 | the second pass writes each cell's normalised density, in place |
| Kde.AnnotateGrid | src/utils/spatialAnalysis.js:183-200 | both passes yield the annotated grid and its maximum density |
| Kde.PassesAnnotate | src/utils/spatialAnalysis.js:183-200 | the array after both passes is the annotated grid |
| Kde.PerformKde | src/utils/spatialAnalysis.js:152-210 | the method returns the KDE result |
| Kde.NormalizedRange | src/utils/spatialAnalysis.js:194-200 | normalising non-negative densities puts every cell in [0, 1], and a positive maximum is reached with value exactly 1 |
| Kde.DensitiesNonNegative | src/utils/spatialAnalysis.js:174-191 | with unit weights and a default or non-negative bandwidth every density is non-negative |
| Kde.NormalizedInUnitInterval | src/utils/spatialAnalysis.js:152-210 | with unit weights and any bandwidth, every normalised density of the result lies in [0, 1], and some cell reaches 1 when the maximum is positive |
| Kde.NormalizedZeroWithoutPositiveMax | src/utils/spatialAnalysis.js:194-200 | without a positive maximum every normalised density is 0 |
| GiStar.Coerce | src/utils/spatialAnalysis.js:318-321 | a number stays itself; anything else becomes 1 |
| GiStar.Values | src/utils/spatialAnalysis.js:318-321 | one coerced value per point, in order |
| GiStar.ChooseThreshold | src/utils/spatialAnalysis.js:287-292 | a truthy fixed distance wins, then a truthy distance threshold, else the adaptive threshold; the result is never 0 |
| GiStar.ZScores | src/utils/spatialAnalysis.js:450-463 | the z-scores of the records, in order |
| GiStar.GiRecord | src/utils/spatialAnalysis.js:382-446 | one main-branch record: the z-score of the point's weight row, its p-value, tier, confidence and flags, and the neighbour count, weight total and weighted sum (`GiStar.RecordsClassified`, `GiStar.RecordFlags`) |
| GiStar.GiMain | src/utils/spatialAnalysis.js:316-470 | the main branch: the chosen threshold's weight matrix, one record per point over its own row with the global mean and deviation, and the tally of their z-scores (`GiStar.MainRecords`, `GiStar.SummaryPartitions`) |
| GiStar.GiStar | src/utils/spatialAnalysis.js:286-470 | one record per point, in order, carrying that point |
| GiStar.PerformGetisOrdGiStar | src/utils/spatialAnalysis.js:286-470 | the method returns the Gi* output |
| GiStar.ZScore | src/utils/spatialAnalysis.js:393-405 | (Σwx − x̄·Σw) / (S·√max(0, vc)), and 0 when that denominator is not positive (`GiStar.ZScoreSign`, `GiStar.QuotientSign`) |
| GiStar.ZScoreSign | src/utils/spatialAnalysis.js:382-405 | a positive z means the local weighted sum exceeds the mean times the weight total, and a negative z the reverse; z is 0 when the variance component is not positive; conversely, with S > 0 and a positive component, a local sum above that expectation gives z > 0 |
| GiStar.SignOfQuotient | src/utils/spatialAnalysis.js:399-405 | the same sign facts for the guarded quotient (local − expected) / (S · root) |
| GiStar.QuotientSign | src/utils/spatialAnalysis.js:399-405 | the guarded quotient takes the sign of its numerator and is 0 when the root is 0 |
| GiStar.DivisionSign | src/utils/spatialAnalysis.js:399-405 | dividing by a positive number keeps the sign |
| GiStar.SmallSampleGuard | src/utils/spatialAnalysis.js:294-313 | with fewer than three points every record is neutral (z = 0, p = 1, no confidence, flags or neighbours), all are counted as not significant, and no totals or weights are reported |
| GiStar.ZeroVarianceGuard | src/utils/spatialAnalysis.js:328-356 | from three points on the zero-variance branch is taken exactly when all values coincide; it reports their value as the mean, a threshold of 0, and neutral unflagged records with 0 neighbours |
| GiStar.MainRecords | src/utils/spatialAnalysis.js:363-447 | in the main branch each record is its point's Gi* record over its own weight row, with the global mean and deviation |
| GiStar.RecordsClassified | src/utils/spatialAnalysis.js:411-446 | each record's tier is the tier of its z-score, `giStar` equals z, and the confidence and flags agree with the tier |
| GiStar.SummaryPartitions | src/utils/spatialAnalysis.js:450-469 | the counters partition the points and are the tally of the records' z-scores; the totals count the hot and cold tiers |
| GiStar.ZeroScoresTally | src/utils/spatialAnalysis.js:450-463 | all-zero scores are tallied as not significant |
| GiStar.FlagsMeanExcess | src/utils/spatialAnalysis.js:382-447 | a hotspot's local weighted sum exceeds the global mean times its weight total, and a coldspot's falls below it |
| GiStar.RecordFlags | src/utils/spatialAnalysis.js:382-447 | the same for one record built in the main loop |
| GiStar.GuardRecordsUnflagged | src/utils/spatialAnalysis.js:294-356 | the two guard branches never flag a point |
| GiStar.NeighbourCounts | src/utils/spatialAnalysis.js:393-444 | with non-negative thresholds a weight total lies in [1, n] and a neighbour count in [0, n − 1] |
| GiStar.FullNeighbourhoodNeutral | src/utils/spatialAnalysis.js:382-463 | when the threshold reaches every pair, every z is 0 and nothing is significant |
| GiStar.ZeroScores | src/utils/spatialAnalysis.js:382-405 | when the threshold reaches every pair of points, every z-score is 0 |
| GiStar.ZeroScoreAt | src/utils/spatialAnalysis.js:382-405 | a point whose neighbourhood takes in every point has z-score 0 |
| GiStar.AllOnesRowNeutral | src/utils/spatialAnalysis.js:396-405 | an all-ones row has variance component 0, and hence z = 0 |
| GiStar.WeightTypeIgnored | src/utils/spatialAnalysis.js:287-292 | the `weightType` option does not change the result |
| Analysis.Prepare | src/utils/spatialAnalysis.js:558-564 | one prepared point: the point's own `id`, `lat`, `lng` and `value` where it has the key, else the `||` defaults (`Analysis.OwnFieldsWin`, `Analysis.MissingFieldsDefault`) |
| Analysis.PrepareAll | src/utils/spatialAnalysis.js:558-564 | one prepared point per input, in order, each prepared with its own index |
| Analysis.ToPoints | src/utils/spatialAnalysis.js:558-564 | one analysis point per prepared point, in order |
| Analysis.SpatialAnalysis | src/utils/spatialAnalysis.js:549-584 | the result carries one prepared point per input, in order, each prepared with its own index |
| Analysis.GiRecordsFollowPoints | src/utils/spatialAnalysis.js:566-584 | one Gi* record per input, in order, each carrying that input's prepared point |
| Analysis.KdeGridSize | src/utils/spatialAnalysis.js:566-584 | for a non-empty input the KDE grid has (resolution + 1)² cells, with resolution 40 by default |
| Analysis.PerformSpatialAnalysis | src/utils/spatialAnalysis.js:549-584 | the method returns that result |
| Analysis.OwnFieldsWin | src/utils/spatialAnalysis.js:558-564 | a point's own `id`, `lat`, `lng` and `value` take precedence |
| Analysis.MissingFieldsDefault | src/utils/spatialAnalysis.js:558-564 | a missing id becomes the index; missing coordinates come from `Latitude` and `Longitude`; a missing value falls back to a truthy `intensity`, else 1 |
| Analysis.DefaultValueIsOne | src/utils/spatialAnalysis.js:318-321 | a point with neither a value nor a truthy intensity enters Gi* with the value 1 |
| Analysis.KdeOverPreparedPoints | src/utils/spatialAnalysis.js:549-570 | the KDE runs on the prepared points with the bandwidth and resolution (40 by default) passed through, no weights, no bounds and the default kernel |
| Analysis.GiOverPreparedPoints | src/utils/spatialAnalysis.js:549-577 | Gi* runs on the same prepared points with the distance threshold and the weight type ("binary" by default) passed through |
| Store.MaxWithZero | src/store/useStore.js:61-67 | `Math.max(...ids, 0)`: at least 0 and every id, and equal to some id or to 0 |
| Store.NextId | src/store/useStore.js:61-67 | the next id is at least 1 and above every id, and it is 1 or one more than an existing id |
| Store.Keys | src/store/useStore.js:61-67 | the ids of a table, in order |
| Store.NextIdsAreFresh | src/store/useStore.js:61-67 | every `getNext*Id` is above every existing id of its table |
| Store.Activated | src/store/useStore.js:171 | `IsActive ?? true`: a missing or null `IsActive` becomes true, and every other attribute is kept |
| Store.NewContacts | src/store/useStore.js:83-92 | the appended contacts have consecutive ids from the next contact id and belong to the new person |
| Store.NewLinks | src/store/useStore.js:298-305 | the appended case links have consecutive ids and belong to the new case; falsy details become null |
| Store.NewSeizures | src/store/useStore.js:308-313 | the appended seizures have consecutive ids and belong to the new case; every other property of each seizure is kept |
| Store.AddPersonKeepsIdsUnique | src/store/useStore.js:72-98 | `addPerson` keeps every table's ids unique; the new person's id and contact ids are fresh |
| Store.AddLocationKeepsIdsUnique | src/store/useStore.js:231-243 | `addLocation` keeps the ids unique; the new id is fresh |
| Store.AddCaseKeepsIdsUnique | src/store/useStore.js:287-319 | `addCase` keeps the ids unique, including the new links and seizures |
| Store.SingleAddsKeepIdsUnique | src/store/useStore.js:164-176 | `addContact`, `addSeizure` and `addNetworkConnection` keep the ids unique |
| Store.DeletePersonCascades | src/store/useStore.js:139-148 | after `deletePerson` no person, case link, network link, contact or person location refers to the id; every other record is kept, in order |
| Store.DeletePersonKeepsIdsUnique | src/store/useStore.js:139-148 | `deletePerson` keeps the ids unique |
| Store.DeleteCaseCascades | src/store/useStore.js:356-361 | `deleteCase` removes exactly the case and its links and seizures, in both directions, keeping the rest in order |
| Store.DeleteCaseKeepsIdsUnique | src/store/useStore.js:356-361 | `deleteCase` keeps the ids unique |
| Store.DeleteOneRemovesExactly | src/store/useStore.js:208-211 | `deleteSeizure` and `deleteContact` remove exactly the records with that id and keep the ids unique |
| Store.DeleteConnectionIsDirected | src/store/useStore.js:444-449 | `deleteNetworkConnection(a, b)` removes exactly the links from a to b; a link from b to a survives; the ids stay unique |
| Store.UpdatePersonOnlyTarget | src/store/useStore.js:119-126 | `updatePerson` changes only the person with that id: the updates are merged and `UpdatedAt` is stamped, while ids, length and all other persons stay the same |
| Store.UpdateCaseOnlyTarget | src/store/useStore.js:336-343 | the same for `updateCase` |
| Store.UpdateLocationOnlyTarget | src/store/useStore.js:264-271 | the same for `updateLocation` |
| Store.UpdateContactOnlyTarget | src/store/useStore.js:190-195 | `updateContact` merges the updates into the contact with that id only, without a timestamp |
| Store.CaseIdsOf | src/store/useStore.js:476-478 | a case id is listed exactly when some link carries it |
| Store.CasesForPerson | src/store/useStore.js:475-480 | a subsequence of the cases holding exactly the cases that some link ties to the person |
| Store.NetworkConnections | src/store/useStore.js:493-499 | the subordinates are exactly the links from the person, and the superiors exactly the links to the person, each in table order |
| Store.DrugStatsAsWritten | src/store/useStore.js:540-549 | the reduction as written, over `{}`: a seizure whose drug type is an inherited key creates no entry (`Store.InheritedKeyDropsSeizure`) |
| Store.DrugStats | src/store/useStore.js:540-556 | the corrected reduction: one entry per drug type, in order of first appearance, accumulating count, quantity and value and keeping the first unit (`Store.DrugStatsPartition`, `Store.DrugStatsTotals`, `Store.DrugStatsUnits`) |
| Store.InheritedKeyDropsSeizure | src/store/useStore.js:540-549 | as written, a seizure whose drug type is `constructor` gets no entry in `drugStats`: the entries count 0 seizures out of 1 |
| Store.SumCountsBump | src/store/useStore.js:545-546 | incrementing one entry's count raises the total by one |
| Store.StatStepEffect | src/store/useStore.js:540-549 | one reduction step keeps the drug types distinct and bumps only the seizure's entry |
| Store.CountSnoc | src/store/useStore.js:540-549 | appending a seizure adds one to the count of its drug type only |
| Store.DrugStatsPartition | src/store/useStore.js:540-556 | the corrected `drugStats` has one entry per drug type; each entry counts the seizures of its type; and the counts sum to the number of seizures |
| Store.FirstOfType | src/store/useStore.js:542-544 | the position of the first seizure of a type: it has that type and no earlier seizure does, or it is the length when none has |
| Store.NoneOfType | src/store/useStore.js:540-549 | without seizures of a type, its total quantity and total value are 0 |
| Store.StatStepTotals | src/store/useStore.js:540-549 | one reduction step adds the seizure's quantity, and its numeric `EstimatedValue` or 0, to the entry of its type only; keeps every unit, and a new entry takes the seizure's own quantity, value and unit |
| Store.TotalsSnoc | src/store/useStore.js:545-547 | appending a seizure adds its quantity and value to the totals of its own type only |
| Store.FirstOfTypeSnoc | src/store/useStore.js:542-544 | appending a seizure keeps the first seizure of a type already present; for a new type it is the appended seizure |
| Store.AbsentType | src/store/useStore.js:540-549 | when every seizure's type has an entry, a type without an entry has no seizure |
| Store.DrugStatsTotals | src/store/useStore.js:540-549 | each corrected entry's `totalQuantity` and `totalValue` are the sums of the quantities and of the values (the numeric `EstimatedValue`, or 0) of the seizures of its type |
| Store.DrugStatsUnits | src/store/useStore.js:540-549 | each corrected entry carries the `Unit` of the first seizure of its type |
| Store.NoEntryNoSeizure | src/store/useStore.js:540-549 | a drug type without an entry has no seizures |
| Store.GetStats | src/store/useStore.js:534-558 | the dashboard statistics: cases under investigation, arrested persons, suspect or active persons, all cases, and the corrected drug statistics (`Store.StatsBounds`) |
| Store.StatsBounds | src/store/useStore.js:534-558 | active cases ≤ total cases = the number of cases; arrests + suspects ≤ the number of persons; the drug counts sum to the number of seizures (corrected reduction, see Findings) |
| Store.DataStore.constructor | src/store/useStore.js:43-55 | the store starts from the initial tables, with no error |
| Store.DataStore.Commit | src/store/useStore.js:95-98 | `set` replaces the tables in one step and keeps the invariant |
| Store.DataStore.AddPerson | src/store/useStore.js:72-117 | returns the next person id and appends the stamped person and its numbered contacts |
| Store.DataStore.AddContact | src/store/useStore.js:164-188 | returns the next contact id and appends the activated contact |
| Store.DataStore.AddLocation | src/store/useStore.js:231-259 | returns the next location id and appends the stamped location |
| Store.DataStore.AddCase | src/store/useStore.js:287-334 | returns the next case id and appends the case, its links and its seizures, each seizure keeping its own properties |
| Store.DataStore.AddSeizure | src/store/useStore.js:377-399 | returns the next seizure id and appends the seizure with all its other properties |
| Store.DataStore.AddNetworkConnection | src/store/useStore.js:420-442 | returns the next relationship id and appends the link |
| Store.DataStore.DeletePerson | src/store/useStore.js:139-148 | the tables become the cascade-deleted tables |
| Store.DataStore.DeleteCase | src/store/useStore.js:356-361 | the tables become the cascade-deleted tables |
| Store.DataStore.DeleteSeizure | src/store/useStore.js:401-404 | the seizure with that id is removed |
| Store.DataStore.DeleteContact | src/store/useStore.js:208-211 | the contact with that id is removed |
| Store.DataStore.DeleteNetworkConnection | src/store/useStore.js:444-449 | the directed links are removed |
| Store.DataStore.UpdatePerson | src/store/useStore.js:119-126 | the person with that id is merged and stamped |
| Store.DataStore.UpdateCase | src/store/useStore.js:336-343 | the case with that id is merged and stamped |
| Store.DataStore.UpdateLocation | src/store/useStore.js:264-271 | the location with that id is merged and stamped |
| Store.DataStore.UpdateContact | src/store/useStore.js:190-195 | the contact with that id is merged |
| Store.DataStore.ResetData | src/store/useStore.js:606-616 | the tables return to the initial data and the error is cleared |
| Store.NumberContacts | src/store/useStore.js:85-91 | the `contactId++` loop yields exactly the numbered contacts |
| Store.NumberLinks | src/store/useStore.js:298-305 | the `casePersonId++` loop yields exactly the numbered links |
| Store.NumberSeizures | src/store/useStore.js:308-313 | the `currentSeizureId++` loop yields exactly the numbered seizures |
| Store.Toggled | src/store/useStore.js:20-22 | the new theme is "dark" or "light", and it is "light" exactly when the old one was "dark" |
| Store.ToggleTwice | src/store/useStore.js:20-22 | toggling twice restores either theme |
| Store.ThemeStore.constructor | src/store/useStore.js:19 | the theme starts as "dark" |
| Store.ThemeStore.ToggleTheme | src/store/useStore.js:20-22 | the theme becomes its toggled value |
| Store.ThemeStore.SetTheme | src/store/useStore.js:23 | the theme becomes the given one |
| Gis.GetGeometryType | src/services/gisService.js:118-120 | never empty; a present, non-empty type name is returned as is; "Unknown" exactly when the feature, geometry or type is missing or empty, or the type is itself "Unknown" |
| Gis.BoxOf | src/services/gisService.js:130-142 | a box exists exactly when there is at least one position |
| Gis.BoxContains | src/services/gisService.js:137-142 | the box contains every processed position |
| Gis.BoxAttained | src/services/gisService.js:137-142 | each of the four bounds is attained by some processed position |
| Gis.BoxOrdered | src/services/gisService.js:137-142 | min ≤ max on both axes |
| Gis.ArrayContains | src/services/gisService.js:137-142 | the four-entry bounds array built from the positions contains every one of them |
| Gis.ArrayAttained | src/services/gisService.js:137-142 | for at least one position the four entries are finite, ordered, and each attained by a position |
| Gis.ExtendAcc | src/services/gisService.js:137-142 | processing one more position extends the accumulator to the box of all positions seen |
| Gis.Bounds | src/services/gisService.js:127-159 | `null` exactly for missing or empty input; otherwise four bounds |
| Gis.ProcessCoords | src/services/gisService.js:137-148 | the loop over positions accumulates their box |
| Gis.ProcessOuterRings | src/services/gisService.js:151-154 | the loop over polygons accumulates the box of their outer rings |
| Gis.ProcessFeature | src/services/gisService.js:133-155 | one feature's dispatch on its type accumulates the box of its contributing positions |
| Gis.CalculateBounds | src/services/gisService.js:127-159 | the method returns the bounds |
| Gis.BoundsContainEveryPosition | src/services/gisService.js:127-159 | every contributing position lies inside the bounds; with no positions the result is [Infinity, Infinity, -Infinity, -Infinity] |
| Gis.BoundsAreAttained | src/services/gisService.js:127-159 | with at least one position the four bounds are finite, ordered, and each attained by a position |
| Gis.AllCoordsAround | src/services/gisService.js:133-156 | the contributing positions of the features are those of each feature, in order |
| Gis.OnlyProcessedPositionsCount | src/services/gisService.js:133-156 | replacing a feature's geometry by one with the same contributing positions does not change the bounds |
| Gis.ContributingPositions | src/services/gisService.js:144-155 | a polygon contributes its outer ring; a multipolygon contributes every polygon's outer ring; an unknown type contributes nothing; and the type is known exactly when it is not the unknown kind |
| Gis.OuterRingsInclude | src/services/gisService.js:151-154 | every polygon's outer ring is among the positions processed |

## Left out

- **Floating point.**
  - IEEE rounding, NaN and Infinity in the arithmetic are not modelled; it is over `real`.
  - The haversine distance, `Math.sqrt`, `Math.exp` and `Math.pow` are abstract. Only the facts in `Numerics.Sound` are used.
  - `Math.sqrt(2)` is the constant `Numerics.SQRT_2`.
  - `Math.pow(x, 2)` is written as `x * x`.
- Numerics.GaussianKernel: with a zero bandwidth the source divides by zero and yields NaN; the model returns 0. The normalised densities are 0 either way.
- Kde.Grid: a resolution of 0 is excluded by its precondition. The source then divides by zero and produces NaN coordinates.
- Kde.Kde: when weights are given there must be at least one per point. In the source, a shorter weight array multiplies by `undefined` and produces NaN.
- **A `null` KDE resolution** is not represented. The source keeps it instead of the default 50 and builds a single cell with NaN coordinates.
- Analysis.Prepare: only `id`, `lat`, `lng` and `value` are carried; the other own properties that `...p` copies into the prepared point are not modelled, so the results do not echo them. In particular a caller's own `confidenceLevel`, `isHotspot`, `isColdspot` or `neighborsCount` survives the fewer-than-three-points branch in the source, which spreads the point and overwrites only `giStar`, `zScore`, `pValue` and `classification`; GiStar.SmallSampleGuard and GiStar.GuardRecordsUnflagged state the model's records, where those fields are absent.
- Analysis.SpatialAnalysis: requires every prepared point to have numeric coordinates (`Located`), because the model's `Point` carries real coordinates. This excludes every non-number coordinate, including the ones the source still handles through JavaScript's numeric coercion in `haversineDistance` and in the `± 0.1` padding: numeric strings such as `"13.7"`, `null` and booleans. Other values would give NaN distances there.
- **Analysis options.** `performSpatialAnalysis` always analyses the attribute `value`, so the `attributeField` option of Gi* is not modelled.
- **Database and persistence.**
  - The data store's database modes and synchronisation are not modelled: the `dbService` calls, the id merge after a database write, and the `lastError` they set.
  - Also out: `setDbMode`, `loadFromDatabase`, `syncToDatabase`, and the `persist` middleware with its `localStorage`.
  - Every action is modelled as in the local-only mode, and `lastError` never changes except in `resetData`.
- **Timestamps.** `new Date().toISOString()` is the `now` parameter.
- **Update payloads.** They are attribute maps separate from the id fields, so an update that rewrites `PersonID` or `CaseID` is not modelled. The source's spread would let it.
- Store.ValueOrZero: a non-numeric truthy `EstimatedValue` (a string) is counted as 0. In the source, `+=` would turn the total into a string concatenation.
- Store.DrugStats: `Object.values` lists integer-like keys first in ascending order. The model keeps first-appearance order for every key.
- **Read-only helpers.** `getContactsForPerson`, `getPersonById`, `getCaseById`, `getLocationById`, `getSeizuresForCase`, `getPersonsForCase`, `getCaseLocations` and `getPersonLocations` are not modelled. They are single filters or finds.
- **Other spatial-engine functions.** Left out: `getHotspotColor`, `kdeToContours`, `calculateDefaultThreshold`, and the great-circle formula inside `haversine`.
- **Other GIS functions.** The GeoJSON loaders and the rest of `gisService.js` are not modelled; they do network and file I/O.
- Gis.CalculateBounds: a feature without a geometry, or a polygon without rings, is excluded by `WellFormed`; the source throws a `TypeError` on it. A geometry whose `type` is not a string is out of scope.
- Gis.Bounds: the JavaScript array `[Infinity, Infinity, -Infinity, -Infinity]` is represented with the extended values `Gis.Ext` (`NegInf`, `Fin`, `PosInf`).
- **Gi* options.** `performGetisOrdGiStar` accepts the `weightType` option but ignores it. The model follows the code, so `calculateInverseDistanceWeights` is modelled on its own and is not used by the Gi* pass.
- **Concurrency.** The order in which the asynchronous store actions interleave is not modelled; each action's local `set` is one atomic step.

## Findings

| source | as written | input that shows it | evidently intended | confidence | as-written member | corrected member |
|---|---|---|---|---|---|---|
| src/store/useStore.js:540-549 | `getStats` reduces the seizures into a plain object `{}` and tests `!acc[key]`. For a drug type naming an inherited member of `Object.prototype` (`constructor`, `toString`, `__proto__`, …), that test is false. No entry is created, the updates land on the inherited member, and `Object.values` does not list them | one seizure with `DrugType` `"constructor"`: `drugStats` comes back empty, so 0 seizures are counted out of 1 | one entry per distinct drug type, counting all seizures of that type (for example, an accumulator without a prototype) | not executed | Store.DrugStatsAsWritten / Store.InheritedKeyDropsSeizure | Store.DrugStats / Store.DrugStatsPartition |
