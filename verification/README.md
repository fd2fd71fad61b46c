# Spatial-grouping utilities of FINE's spagat package, in Dafny

This project models `FINE/spagat/grouping_utils.py`. That module prepares an energy-system
dataset for the spatial aggregation of regions and measures how good a grouping of regions is.
It:

- sorts the dataset's variables into time series (`component, Period, TimeStep, space`),
  1-d variables (`component, space`) and 2-d variables (`component, space, space_2`);
- keeps, per variable, only its *valid* components (those with a mean that is a number);
- scales each component (`matrix_MinMaxScaler` for time series and 2-d variables,
  sklearn's per-column `MinMaxScaler` for 1-d variables). A non-constant, NaN-free
  component is scaled onto [0, 1]. `matrix_MinMaxScaler` returns a constant component
  unchanged, and one NaN makes the whole component NaN;
- returns either three dicts (dissimilarity mode, 2-d matrices condensed to `1 - v` vectors)
  or three weighted matrices (affinity mode);
- computes the weighted custom distance between two regions and the hollow symmetric matrix
  of it;
- builds the 0/1 connectivity matrix of the regions from the 2-d variables, preferring
  components whose name contains "pipeline";
- computes the modularity of a grouping over an adjacency matrix;
- computes the silhouette-score list over a hierarchy of groupings.

Modelling choices:

- A numpy float is a `Cell = Option<real>`; `None` is NaN.
- Python dicts are sequences of name/value pairs in insertion order.
- Python exceptions are the error side of a `Result` (`KeyError`, `ValueError`, `IndexError`).
- The source's loops that build or update a value are methods with loop invariants. Each is
  proved equal to a recursive specification function, and the properties are lemmas about
  those functions. The read-only loops are those recursive functions directly: the
  classification loop of `preprocessDataset` (`Preprocess.Categorize`) and the searches
  of `checkConnectivity` (`Connectivity.LinkedFrom`, `Connectivity.LinkedFromVariable`).
- The two in-place numpy steps are methods over `array2` with `modifies` clauses:
  `adjacency += adjacency.T - np.diag(...)` and `np.fill_diagonal`.
- `selfDistance` reads the condensed 2-d vectors at the position its own formula gives,
  `x*(n-x) + (y-x) - 1`, as written. That is the position `squareform` gave the pair (x, y)
  only when x <= 1. For other pairs it can be the position of another pair. For example, with 4 regions pairs (1,3) and (2,3) are both read
  at position 4. `Condensed` and `Distance` state both facts. Only the caller's order x < y
  is modelled.

Modules, in dependency order:

- `Wrappers`: Option, Result, ordered dicts, and the "first failure stops the loop" collector.
- `Numeric`: NaN-aware arithmetic and means.
- `Matrices`: numpy matrix operations.
- `Scaler`: both min-max scalers.
- `Dataset`: variables, classification and valid components.
- `TimeSeries`: `preprocessTimeSeries`.
- `Scalar`: `preprocess1dVariables`.
- `Condensed`: scipy's `squareform` layout and the lookup formula of `selfDistance`.
- `Pairwise`: `preprocess2dVariables`.
- `Preprocess`: `preprocessDataset`.
- `NdArrays`: the in-place array steps.
- `Distance`: `selfDistance` and `selfDistanceMatrix`.
- `Connectivity`: `generateConnectivityMatrix` and `checkConnectivity`.
- `Modularity`: `computeModularity`.
- `Silhouette`: `computeSilhouetteCoefficient`.

## Model

All source paths are in `FINE/spagat/grouping_utils.py`.

| member | source | states |
|---|---|---|
| Numeric.NanMeanDefined | FINE/spagat/grouping_utils.py:64 | a NaN-skipping mean is a number exactly when some entry is |
| Matrices.BlockMeanDefined | FINE/spagat/grouping_utils.py:64-66 | the mean over space, then over time, of a component is a number exactly when one of its entries is |
| Scaler.MinMaxScale | FINE/spagat/grouping_utils.py:12-33 | `matrix_MinMaxScaler` keeps the shape of its matrix |
| Scaler.ScaleConstant | FINE/spagat/grouping_utils.py:30-31 | a matrix with one value throughout is returned unchanged |
| Scaler.ScaleNan | FINE/spagat/grouping_utils.py:30-33 | one NaN makes np.min and np.max NaN, so every entry of the result is NaN |
| Scaler.MatBounds | FINE/spagat/grouping_utils.py:33 | np.min and np.max bound every entry and are attained |
| Scaler.RescaleBounds | FINE/spagat/grouping_utils.py:33 | the formula maps [min, max] into [scaled_min, scaled_max], min to scaled_min and max to scaled_max |
| Scaler.ScaleEntry | FINE/spagat/grouping_utils.py:33 | each entry of a NaN-free non-constant matrix lands in [lo, hi]; the minimum goes to lo, the maximum to hi |
| Scaler.ScaleRange | FINE/spagat/grouping_utils.py:12-33 | for a NaN-free non-constant matrix every entry is in [lo, hi] and both ends are attained |
| Scaler.ColumnScale | FINE/spagat/grouping_utils.py:116 | `fit_transform` fails exactly on a matrix without rows or columns, and otherwise keeps the shape |
| Scaler.ColumnScaleEntry | FINE/spagat/grouping_utils.py:116 | per column: NaN stays NaN, numbers land in [0, 1], the column minimum goes to 0 and the maximum to 1 |
| Dataset.ConnectivityVariableIsPairwise | FINE/spagat/grouping_utils.py:484 | a variable whose dims are exactly (component, space, space_2) is also a 2-d variable for `preprocessDataset` |
| Dataset.PairwiseNeedNotBeConnectivity | FINE/spagat/grouping_utils.py:267 | the converse fails: dims in another order are 2-d for `preprocessDataset` but ignored by the connectivity matrix |
| Dataset.CategoryNames | FINE/spagat/grouping_utils.py:258-271 | each category's dict holds exactly the variables whose sorted dims match it, in dataset order |
| Dataset.TimeSeriesVars | FINE/spagat/grouping_utils.py:260-262 | when every time-series variable has a period, each one, after the transpose and `[0]`, is component x space x TimeStep |
| Dataset.ScalarVars | FINE/spagat/grouping_utils.py:264-265 | each 1-d variable is component x space |
| Dataset.PairwiseVars | FINE/spagat/grouping_utils.py:267-268 | each 2-d variable is component x space x space_2 |
| Dataset.ConnectivityVars | FINE/spagat/grouping_utils.py:483-485 | the variables the connectivity matrix uses are component x space x space_2 |
| Dataset.ValidIdsSpec | FINE/spagat/grouping_utils.py:64-66 | the valid component ids are ascending and are exactly the components whose mean is not NaN |
| Dataset.BlockValid | FINE/spagat/grouping_utils.py:175-177 | a time-series or 2-d component is valid exactly when one of its entries is a number |
| Dataset.ValidBlocksNonEmpty | FINE/spagat/grouping_utils.py:64-66 | a variable over no region or no time step has no valid component |
| Dataset.ScalarValid | FINE/spagat/grouping_utils.py:108-110 | a 1-d component is valid exactly when one of its regions has a number |
| TimeSeries.ConcatBlocksAt | FINE/spagat/grouping_utils.py:69-74 | after the concatenation, block k occupies columns k*steps .. k*steps+steps-1 of every row |
| TimeSeries.Features | FINE/spagat/grouping_utils.py:60-78 | a variable's matrix has a row per region |
| TimeSeries.FeaturesShape | FINE/spagat/grouping_utils.py:69-77 | that matrix is regions x (valid components * time steps) |
| TimeSeries.FeaturesComponents | FINE/spagat/grouping_utils.py:64-69 | the blocks are the valid components, ascending, and a component is valid exactly when one of its entries is a number |
| TimeSeries.FeaturesBlock | FINE/spagat/grouping_utils.py:69-74 | column k*steps+t of row i is entry [i][t] of the k-th valid component after `matrix_MinMaxScaler` |
| TimeSeries.ZeroThenBlocksStep | FINE/spagat/grouping_utils.py:74 | concatenating one more scaled block keeps the zero column followed by the blocks so far |
| TimeSeries.DropZeroColumn | FINE/spagat/grouping_utils.py:61-77 | deleting the initial zero column leaves exactly the concatenated blocks |
| TimeSeries.AppendBlocks | FINE/spagat/grouping_utils.py:61-77 | the loop's matrix, once the zero column is deleted, is the concatenation of the scaled blocks |
| TimeSeries.VariableFeatures | FINE/spagat/grouping_utils.py:63-78 | the matrix stored for one variable is its features matrix |
| TimeSeries.FeatureListAt | FINE/spagat/grouping_utils.py:60-78 | entry k of the result is variable k with its features matrix |
| TimeSeries.PreprocessTimeSeries | FINE/spagat/grouping_utils.py:35-80 | `preprocessTimeSeries` returns every variable's features matrix, in dict order |
| Scalar.ScalarFeatures | FINE/spagat/grouping_utils.py:108-116 | a 1-d variable fails exactly when it has no valid component; otherwise its matrix is regions x valid components |
| Scalar.ScalarFeaturesError | FINE/spagat/grouping_utils.py:108-116 | failure happens exactly when none of the variable's entries is a number |
| Scalar.ScalarFeaturesEntry | FINE/spagat/grouping_utils.py:113-116 | column k is the k-th valid component scaled over the regions: NaN kept, [0, 1], minimum 0, maximum 1, and 0 when constant |
| Scalar.ScalarDictsSpec | FINE/spagat/grouping_utils.py:100-118 | `preprocess1dVariables` fails exactly when some variable does; otherwise entry k is variable k with its scaled matrix |
| Scalar.ScalarStep | FINE/spagat/grouping_utils.py:105-116 | one more variable either ends the function with its failure or appends its matrix |
| Scalar.Preprocess1d | FINE/spagat/grouping_utils.py:82-118 | the loop computes the result `ScalarDictsSpec` describes |
| Condensed.CondensedLengthFormula | FINE/spagat/grouping_utils.py:204 | the condensed vector of an n x n matrix has n(n-1)/2 entries |
| Condensed.CondensedIndexInRow | FINE/spagat/grouping_utils.py:204 | pair (x, y) sits inside row x's stretch of the condensed vector |
| Condensed.CondensedIndexInjective | FINE/spagat/grouping_utils.py:204 | different pairs sit at different positions |
| Condensed.CondensedRoundTrip | FINE/spagat/grouping_utils.py:204 | decoding the position of pair (x, y) gives back (x, y) |
| Condensed.CondenseAt | FINE/spagat/grouping_utils.py:204 | `squareform` puts m[x][y] at the row-major position of (x, y) |
| Condensed.CondenseLength | FINE/spagat/grouping_utils.py:204 | `squareform` of an n x n matrix has n(n-1)/2 entries |
| Condensed.LookupShortfall | FINE/spagat/grouping_utils.py:412 | the lookup formula as written falls short of the row-major position by x(x-1)/2 |
| Condensed.LookupInBounds | FINE/spagat/grouping_utils.py:412 | the formula as written stays inside the condensed vector |
| Condensed.LookupMatchesOnlyFirstRows | FINE/spagat/grouping_utils.py:412 | the formula as written is the right position exactly when x <= 1 |
| Condensed.LookupCollision | FINE/spagat/grouping_utils.py:412 | with 4 regions, pairs (1,3) and (2,3) are both looked up at position 4 |
| Condensed.CollidingPairsPositions | FINE/spagat/grouping_utils.py:204 | `squareform` put pair (1,3) at 4 and pair (2,3) at 5 |
| Condensed.LookupReadsLastOfRowOne | FINE/spagat/grouping_utils.py:412 | for n >= 4 the lookup for pair (2,3) is the position of pair (1, n-1) |
| Condensed.LookupReadsOtherPair | FINE/spagat/grouping_utils.py:412-420 | with 4 regions the lookup for pair (2,3) reads m[1][3] |
| Pairwise.MissingFrom | FINE/spagat/grouping_utils.py:186 | the labels pandas reports as missing: exactly those not among the columns, each once, in order of first appearance |
| Pairwise.LabelPositions | FINE/spagat/grouping_utils.py:185-186 | selecting columns by label fails exactly when a label is missing, with one KeyError naming every missing label; otherwise each position is the first column holding its label |
| Pairwise.ReorderedComponent | FINE/spagat/grouping_utils.py:185-186 | the re-ordered component is square, and column j is the first column labelled space[j] (pandas' selection when the space_2 labels are distinct) |
| Pairwise.ScaledComponent | FINE/spagat/grouping_utils.py:182-189 | a re-ordered and scaled component fails exactly on a missing label and is square otherwise |
| Pairwise.ScaledEntries | FINE/spagat/grouping_utils.py:180-189 | the dict built so far has the ids in order, each with a square scaled matrix |
| Pairwise.ScaledEntriesAt | FINE/spagat/grouping_utils.py:180-189 | entry k is component ids[k] with its scaled matrix |
| Pairwise.AffinityEntries | FINE/spagat/grouping_utils.py:174-192 | a successful variable dict holds square scaled matrices |
| Pairwise.AffinityEntriesError | FINE/spagat/grouping_utils.py:174-189 | a variable fails exactly when it has a valid component and a space label is missing from space_2; the error is one KeyError naming every missing label |
| Pairwise.DissimilarityAt | FINE/spagat/grouping_utils.py:203-207 | the dissimilarity vector has n(n-1)/2 entries, and the entry at pair (x, y) is 1 minus the matrix's [x][y] |
| Pairwise.Finished | FINE/spagat/grouping_utils.py:195-210 | converting a dict keeps its keys, and any mode other than dissimilarity changes nothing |
| Pairwise.FinishIdentity | FINE/spagat/grouping_utils.py:195 | outside dissimilarity mode no outcome changes |
| Pairwise.Dicts2dSpec | FINE/spagat/grouping_utils.py:164-212 | `preprocess2dVariables` fails exactly when some variable does; otherwise entry k is variable k's dict, finished in the mode |
| Pairwise.ScaleComponents | FINE/spagat/grouping_utils.py:180-189 | the component loop fails exactly when there is a component and a label is missing; otherwise it builds the scaled entries |
| Pairwise.VariableAffinities | FINE/spagat/grouping_utils.py:174-192 | the dict of one variable is its affinity dict |
| Pairwise.VariableDissimilarities | FINE/spagat/grouping_utils.py:201-210 | overwriting each entry by `1 - squareform` gives the finished dict |
| Pairwise.AffinitiesStep | FINE/spagat/grouping_utils.py:167-192 | one more variable either stops the function with its KeyError or appends its dict |
| Pairwise.AllAffinities | FINE/spagat/grouping_utils.py:164-192 | steps 1 to 3 build every variable's dict, the first failure stopping them |
| Pairwise.ConvertStep | FINE/spagat/grouping_utils.py:198-210 | converting variable v's dict in place moves step 4 on by one variable |
| Pairwise.AllDissimilarities | FINE/spagat/grouping_utils.py:195-210 | step 4 converts every dict, in place, to dissimilarity vectors |
| Pairwise.Preprocess2d | FINE/spagat/grouping_utils.py:120-212 | the method computes the result `Dicts2dSpec` describes |
| Pairwise.AffinityKeys | FINE/spagat/grouping_utils.py:175-189 | a variable dict's keys are its valid components |
| Pairwise.PairwiseKeys | FINE/spagat/grouping_utils.py:175-192 | the keys are ascending, and a component is a key exactly when one of its entries is a number |
| Pairwise.AffinityEntryAt | FINE/spagat/grouping_utils.py:180-189 | the k-th entry is the k-th valid component, re-ordered and scaled |
| Pairwise.DissimilarityEntry | FINE/spagat/grouping_utils.py:195-210 | in dissimilarity mode the k-th entry is the dissimilarity vector of the k-th valid component |
| Preprocess.WeightedColumns | FINE/spagat/grouping_utils.py:300-307 | the weighted concatenation has a row per region |
| Preprocess.WeightedColumnsErrorStays | FINE/spagat/grouping_utils.py:302-303 | once a variable lacks a weight, later variables change nothing |
| Preprocess.WeightedColumnsError | FINE/spagat/grouping_utils.py:302-303 | the concatenation fails exactly when a variable has no weight, with the KeyError of the first such variable |
| Preprocess.WeightedColumnsBlock | FINE/spagat/grouping_utils.py:302-304 | variable k's weighted matrix occupies the columns right after those of the variables before it |
| Preprocess.WeightedByOne | FINE/spagat/grouping_utils.py:304 | multiplying by weight 1 changes no cell |
| Preprocess.UnitWeightColumns | FINE/spagat/grouping_utils.py:300-309 | with weight 1 everywhere, the weighted concatenation is the plain concatenation |
| Preprocess.ZeroThen | FINE/spagat/grouping_utils.py:300 | the leading zero column is prepended to every row |
| Preprocess.DropZeroThen | FINE/spagat/grouping_utils.py:307 | deleting the zero column gives the matrix back |
| Preprocess.ZeroThenConcat | FINE/spagat/grouping_utils.py:304 | concatenating after the zero column extends the matrix behind it |
| Preprocess.WeightedColumnsStep | FINE/spagat/grouping_utils.py:302-304 | one more variable either raises its KeyError or appends its weighted matrix |
| Preprocess.WeightedConcat | FINE/spagat/grouping_utils.py:300-320 | the loops of steps 4a and 4b compute the weighted concatenation |
| Preprocess.AddComponents | FINE/spagat/grouping_utils.py:332-333 | adding weighted components keeps an n x n matrix |
| Preprocess.WeightedSum | FINE/spagat/grouping_utils.py:325-333 | the summed 2-d matrix is n x n |
| Preprocess.WeightedSumErrorStays | FINE/spagat/grouping_utils.py:327-328 | once a 2-d variable lacks a weight, later variables change nothing |
| Preprocess.WeightedSumError | FINE/spagat/grouping_utils.py:327-328 | the sum fails exactly when a 2-d variable has no weight, with the first one's KeyError |
| Preprocess.AddComponentsNonNegative | FINE/spagat/grouping_utils.py:332-333 | adding non-negative matrices with a non-negative weight keeps every cell non-negative |
| Preprocess.WeightedSumNonNegative | FINE/spagat/grouping_utils.py:325-333 | with non-negative weights and matrices the summed matrix has no negative entry |
| Preprocess.WeightedSumStep | FINE/spagat/grouping_utils.py:327-333 | one more 2-d variable either raises its KeyError or adds its weighted components |
| Preprocess.SumAffinities | FINE/spagat/grouping_utils.py:325-333 | the loops of step 4c compute the weighted sum |
| Preprocess.ScalarDictsShape | FINE/spagat/grouping_utils.py:116 | the 1-d dict has a row per region and keeps the variables' names |
| Preprocess.AffinityDictsShape | FINE/spagat/grouping_utils.py:323 | in affinity mode the 2-d dict holds square matrices and keeps the variables' names |
| Preprocess.AssembleDissimilarity | FINE/spagat/grouping_utils.py:281-286 | dissimilarity mode returns the three dicts unless the 1-d or the 2-d step fails |
| Preprocess.AssembleOther | FINE/spagat/grouping_utils.py:277-290 | any other mode returns nothing unless the 1-d step fails |
| Preprocess.AssembleAffinityErrors | FINE/spagat/grouping_utils.py:290-335 | affinity mode fails exactly when the 1-d or the 2-d step fails or a variable has no weight |
| Preprocess.AssembleUnitWeights | FINE/spagat/grouping_utils.py:298-320 | with weight 1 everywhere, the time-series and 1-d matrices are the per-variable matrices side by side |
| Preprocess.AffinityUnitWeights | FINE/spagat/grouping_utils.py:298-320 | with weight 1 for every variable, steps 4a and 4b put the per-variable matrices side by side, unweighted |
| Preprocess.Categorize | FINE/spagat/grouping_utils.py:254-271 | step 0 raises IndexError exactly when a time-series variable has no period (`[0]` at line 261); otherwise its dicts hold exactly the variables of each category, in dataset order and shaped |
| Preprocess.MissingPeriodFailsFirst | FINE/spagat/grouping_utils.py:258-262 | a time-series variable without a period makes `preprocessDataset` raise that IndexError in every mode, before any other step |
| Preprocess.PreprocessDataset | FINE/spagat/grouping_utils.py:215-335 | the method computes `preprocessDataset`'s outcome in every mode |
| Preprocess.PreprocessCategories | FINE/spagat/grouping_utils.py:273-335 | steps 1 to 4, run on the dicts of step 0, compute the assembly of the per-category outcomes in every mode |
| Preprocess.AssembleDefaultWeights | FINE/spagat/grouping_utils.py:294-320 | without weights, affinity mode fails only when a step fails, and the matrices are unweighted |
| Preprocess.ScalarOutcome | FINE/spagat/grouping_utils.py:277 | the 1-d step fails exactly when a 1-d variable does, and its dict keeps the names |
| Preprocess.PairwiseOutcome | FINE/spagat/grouping_utils.py:284 | the 2-d step fails exactly when a 2-d variable does, and its dict keeps the names |
| Preprocess.TimeSeriesOutcome | FINE/spagat/grouping_utils.py:274 | the time-series dict keeps the names and has a row per region |
| Preprocess.Unfold | FINE/spagat/grouping_utils.py:273-335 | steps 1 to 4 assemble the outcomes of the per-category steps |
| Distance.DissimilarityDictsCondensed | FINE/spagat/grouping_utils.py:195-210 | every 2-d component becomes a condensed vector over the regions |
| Distance.TimeSeriesRowsPerRegion | FINE/spagat/grouping_utils.py:35-80 | every time-series matrix has a row per region, all of one width |
| Distance.ScalarRowsPerRegion | FINE/spagat/grouping_utils.py:116 | every 1-d matrix has a row per region, all of one width |
| Distance.PreprocessedFitsDistance | FINE/spagat/grouping_utils.py:281-286 | the dissimilarity-mode result has the shapes `selfDistance` reads |
| Distance.SquaredDistance | FINE/spagat/grouping_utils.py:392 | the squared distance of two rows is a number exactly when both are NaN-free, and then it is not negative |
| Distance.SquaredDistanceSymmetric | FINE/spagat/grouping_utils.py:392 | the squared distance does not depend on the order of the rows |
| Distance.PartDistanceErrorStays | FINE/spagat/grouping_utils.py:381-382 | once a variable lacks a weight, later variables change nothing |
| Distance.PartDistanceError | FINE/spagat/grouping_utils.py:381-382 | a part fails exactly when a variable has no weight, with the first one's KeyError |
| Distance.PartDistanceSameFailure | FINE/spagat/grouping_utils.py:380-406 | whether and how a part fails does not depend on the regions |
| Distance.PartDistanceSymmetric | FINE/spagat/grouping_utils.py:380-406 | the time-series and 1-d parts are symmetric in the two regions |
| Distance.PartDistanceNonNegative | FINE/spagat/grouping_utils.py:380-406 | with non-negative weights a part that is a number is not negative |
| Distance.PartSum | FINE/spagat/grouping_utils.py:380-406 | the loops of steps 3a and 3b compute the part |
| Distance.AddSquaresGrows | FINE/spagat/grouping_utils.py:418-424 | with a non-negative weight the squares only add |
| Distance.AddSquaresSkipsNan | FINE/spagat/grouping_utils.py:422 | NaN entries add nothing |
| Distance.Distance2dErrorStays | FINE/spagat/grouping_utils.py:414-415 | once a 2-d variable lacks a weight, later variables change nothing |
| Distance.Distance2dError | FINE/spagat/grouping_utils.py:414-415 | the 2-d part fails exactly when a variable has no weight, with the first one's KeyError |
| Distance.Distance2dSameFailure | FINE/spagat/grouping_utils.py:409-424 | whether and how the 2-d part fails does not depend on the position read |
| Distance.Distance2dNonNegative | FINE/spagat/grouping_utils.py:409-424 | with non-negative weights the 2-d part is not negative |
| Distance.Distance2dAllNan | FINE/spagat/grouping_utils.py:420-424 | when every entry read is NaN the 2-d part is 0 |
| Distance.Sum2d | FINE/spagat/grouping_utils.py:408-424 | the nested loops of step 3c compute the 2-d part |
| Distance.LookupReadsPairInFirstRows | FINE/spagat/grouping_utils.py:412-420 | for x <= 1 the formula as written reads 1 minus the scaled matrix's [x][y] |
| Distance.SelfDistanceReadsPairInFirstRows | FINE/spagat/grouping_utils.py:412-424 | for x <= 1 the distance takes its 2-d part from the `squareform` position of the pair (x, y) itself |
| Distance.SelfDistanceMixesPairs | FINE/spagat/grouping_utils.py:412-427 | for n >= 4 the distance of regions 2 and 3 takes its 2-d part from the `squareform` position of the pair (1, n-1) |
| Distance.SelfDistanceErrors | FINE/spagat/grouping_utils.py:368-427 | the distance fails exactly when a variable has no weight (a KeyError, first) or there are fewer than three part weights (an IndexError) |
| Distance.DefaultWeightsSucceed | FINE/spagat/grouping_utils.py:368-375 | without weights no KeyError arises; without part weights as well the distance is always defined |
| Distance.SelfDistanceNonNegative | FINE/spagat/grouping_utils.py:338-427 | with non-negative weights the distance is not negative |
| Distance.CombineNonNegative | FINE/spagat/grouping_utils.py:427 | combining non-negative parts with non-negative part weights gives a non-negative sum |
| Distance.SelfDistanceSameFailure | FINE/spagat/grouping_utils.py:368-427 | whether and how the distance fails does not depend on the regions |
| Distance.SelfDistance | FINE/spagat/grouping_utils.py:338-427 | `selfDistance`'s steps compute the specified distance |
| Distance.FillPairs | FINE/spagat/grouping_utils.py:448-453 | the pair loops return the first failure, or a fresh zero array with each pair's distance above the diagonal |
| Distance.SelfDistanceMatrix | FINE/spagat/grouping_utils.py:429-458 | the distance matrix fails exactly when the distance does; otherwise it is hollow, symmetric, and holds each pair's distance |
| NdArrays.ReflectedOffDiagonal | FINE/spagat/grouping_utils.py:456 | the fresh array is the transpose less the diagonal |
| NdArrays.AddInPlace | FINE/spagat/grouping_utils.py:456 | `+=` adds the other array entry by entry and changes nothing else |
| NdArrays.Symmetrize | FINE/spagat/grouping_utils.py:515 | the in-place update adds the mirrored entry off the diagonal and keeps the diagonal |
| NdArrays.FillDiagonal | FINE/spagat/grouping_utils.py:518 | the diagonal gets the value and every other entry stays |
| Connectivity.PipelineIds | FINE/spagat/grouping_utils.py:496-499 | the ids are ascending and are exactly those of components whose lower-cased name contains "pipeline" |
| Connectivity.ConnectComponentsMembers | FINE/spagat/grouping_utils.py:494-503 | a component connects regions exactly when it is a pipeline, or when no component is one |
| Connectivity.PipelineComponents | FINE/spagat/grouping_utils.py:496-499 | the loop collects the pipeline ids |
| Connectivity.AllComponents | FINE/spagat/grouping_utils.py:502-503 | the fallback is every component id, ascending |
| Connectivity.ConnectComponents | FINE/spagat/grouping_utils.py:494-503 | steps 2 and 3 give the connecting components |
| Connectivity.LinkedFromSpec | FINE/spagat/grouping_utils.py:543-545 | the component search finds a link exactly when some remaining component links the regions |
| Connectivity.LinkedFromVariableSpec | FINE/spagat/grouping_utils.py:542-549 | the variable search finds a link exactly when some remaining variable has one |
| Connectivity.CheckConnectivitySpec | FINE/spagat/grouping_utils.py:522-549 | `checkConnectivity` holds exactly when a connecting component of some variable is non-zero (or NaN) at [x][y] |
| Connectivity.FillLinks | FINE/spagat/grouping_utils.py:505-510 | the loops give a fresh array with 1 above the diagonal exactly at linked pairs and 0 elsewhere |
| Connectivity.ConnectivityDictsSquare | FINE/spagat/grouping_utils.py:492 | the affinity dicts hold a square matrix over the regions per component |
| Connectivity.GenerateConnectivityMatrix | FINE/spagat/grouping_utils.py:461-520 | fails exactly when the 2-d step does; otherwise fresh, symmetric, every entry 0 or 1, 1 on the diagonal, and 1 at [i, j] off it exactly when some connecting component of some 2-d variable is non-zero (or NaN) there |
| Modularity.RowSum | FINE/spagat/grouping_utils.py:580-581 | `np.sum(adjacency[v])` is the weighted degree of v |
| Modularity.ArraySum | FINE/spagat/grouping_utils.py:571 | `np.sum(adjacency)` is the total weight |
| Modularity.PairSum | FINE/spagat/grouping_utils.py:573-589 | the delta-weighted loop over pairs v < w, divided by twice the total, is the modularity of the grouping |
| Modularity.ComputeModularity | FINE/spagat/grouping_utils.py:551-591 | zeroes the diagonal and leaves the rest; the result is not a number exactly when the total weight is 0, and otherwise is the modularity |
| Modularity.RangeFailsWithNegativeWeights | FINE/spagat/grouping_utils.py:551-591 | the documented range [-0.5, 1) fails on an arbitrary real array: a 3 x 3 array with negative weights and one group gives 4.546875 |
| Modularity.AllDistinctLabelsGiveZero | FINE/spagat/grouping_utils.py:584-589 | when every region has its own label the modularity is 0 |
| Modularity.SameGroupingSameModularity | FINE/spagat/grouping_utils.py:584 | only which regions share a label matters, not the label values |
| Silhouette.RegionIndex | FINE/spagat/grouping_utils.py:632 | `list.index` succeeds exactly for a listed region and gives the first position holding it |
| Silhouette.LabelMembersSpec | FINE/spagat/grouping_utils.py:631-633 | labelling a group fails (ValueError) exactly on an unlisted region; otherwise listed positions get the group's label and the others keep theirs |
| Silhouette.LabelGroupsSpec | FINE/spagat/grouping_utils.py:629-635 | labelling a level fails exactly on an unlisted region; otherwise each position gets the position of the last group listing it, or keeps its label |
| Silhouette.ListedRegionGetsGroup | FINE/spagat/grouping_utils.py:629-635 | a region listed in group g and in no later group gets label g |
| Silhouette.LevelStep | FINE/spagat/grouping_utils.py:622-639 | one level keeps the lengths of both lists |
| Silhouette.SilhouetteSpec | FINE/spagat/grouping_utils.py:618-641 | after any number of levels the score list has max(n-2, 0) entries and the label list n |
| Silhouette.UnwrittenScoreIsZero | FINE/spagat/grouping_utils.py:619-639 | a position no intermediate level writes stays 0 |
| Silhouette.ScoreOfLastWriter | FINE/spagat/grouping_utils.py:638-639 | a position holds the score of the labels left by the last level that writes it |
| Silhouette.LevelLabels | FINE/spagat/grouping_utils.py:620-635 | a level relabels starting from the previous level's labels, which are never reset |
| Silhouette.SkippedLevel | FINE/spagat/grouping_utils.py:625-626 | the levels k = 1 and k = n change nothing |
| Silhouette.SilhouetteErrors | FINE/spagat/grouping_utils.py:632-639 | the function fails exactly when an intermediate level lists an unknown region or its k - 2 is out of range |
| Silhouette.LabelGroup | FINE/spagat/grouping_utils.py:631-633 | the inner loop labels one group |
| Silhouette.LabelLevel | FINE/spagat/grouping_utils.py:629-635 | the loop over groups labels one level |
| Silhouette.RunLevel | FINE/spagat/grouping_utils.py:624-639 | one iteration of the level loop performs one level step |
| Silhouette.ComputeSilhouetteCoefficient | FINE/spagat/grouping_utils.py:593-641 | fails exactly when the specification does, with the same error; otherwise returns its score list |

## Left out

- xarray, pandas and numpy are modelled by what the core reads:
  - variables are taken to be stored component-first. The source transposes only the time series (line 261); for 1-d and 2-d variables it indexes the first axis whatever it is (`da.values[valid_component_ids]` at line 113, `da[comp_id]` at line 182). A 1-d or 2-d variable stored in another order (say space, component) would be sliced along the wrong axis, and such orders are outside the model;
  - dimension lists are compared as multisets, which is what comparing sorted tuples of distinct names amounts to;
  - a time-series variable keeps all its periods; only the first is read, and an empty Period axis is the IndexError of `Preprocess.Categorize`.
- `warnings.warn` for variables of other dimensions (line 271): the variable is skipped and no warning is modelled.
- Floating point: numbers are `real`, so rounding, overflow and the infinities are not modelled. NaN is modelled as `None`.
- sklearn's `MinMaxScaler` is modelled by its per-column formula and its rejection of a matrix without columns or rows. Its other input checks are left out: infinities and dtype.
- `metrics.silhouette_score` is the parameter `score` of `Silhouette.ComputeSilhouetteCoefficient`. Its own ValueError (fewer than 2 or more than n-1 distinct labels) is not modelled.
- Pairwise.LabelPositions: the KeyError carries the missing labels, not pandas' message text. When no label at all is found, pandas' message lists the whole key, duplicates included, where the model lists each missing label once.
- Pairwise.LabelPositions and Pairwise.ReorderedComponent do not model repeated labels in `space_2`. pandas selects every column carrying a repeated label, which gives a wider matrix. That matrix then fails in `squareform` (line 204) or in `matrix_2d += data * weight` (line 333), and `checkConnectivity` reads shifted columns. The model takes the first matching column and keeps the matrix square.
- `str.lower` (line 498) maps only ASCII letters in `Connectivity.Lower`.
- Modularity.ComputeModularity takes a real array with one label per row. The source's documented range [-0.5, 1) is not proved, because it does not hold for an arbitrary real array (`Modularity.RangeFailsWithNegativeWeights`). For a non-negative, symmetric array with zero diagonal the formula adds each pair v < w once and no diagonal term, so it is not Newman's modularity, and no range is proved for that case either.
- Modularity.ComputeModularity returns `None` at once for a total weight of 0. numpy would run the loop and end with NaN or an infinity, which the model does not tell apart.
- The connectivity matrix holds `Cell` values (always 0 or 1). `computeModularity` is modelled over plain reals, so passing one to the other is not modelled.
- Distance.SelfDistanceMatrix writes `SelfDistanceSpec` values into the array. The method `Distance.SelfDistance` is proved equal to that function but is not called from the matrix loop.
- The `geopandas` and `hierarchy` imports beyond `squareform` are not used by the core.
- `FINE/subclasses/conversionDynamic.py` is not part of this model.
