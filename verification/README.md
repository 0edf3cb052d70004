# Harare water-network dashboard data, in Dafny

This project models `harareData.ts`. That file is the data layer of a monitoring dashboard for the Harare water-distribution network. It has three stages:

1. **Feature mappers.** They turn the raw GeoJSON features of the node collection and the pipe collection into flat `Node` and `Pipe` records. Most property keys are copied across. The `Status` key is normalised with `Status?.toLowerCase() || 'unknown'`.
2. **Metrics calculator** (`calculateMetrics`). It counts normal and faulty records, averages pressure and flow rate, totals demand and computes a network-health percentage. It also selects the high-priority records: faulty nodes with pressure strictly above 30 and faulty pipes with flow rate strictly above 1.5.
3. **Fault extractor** (`getFaultyAssets`). It is an order-preserving filter on the status "faulty".

The source reads its two feature collections from global variables of the page. Here they are parameters:

- `Assets.MapNodes(features)` and `Assets.MapPipes(features)` build the records.
- `Metrics.CalculateMetrics(nodes, pipes)` and `Faults.GetFaultyAssets(nodes, pipes)` take the records as arguments.

Modules:

- `Wrappers` (wrappers.dfy): `Option`. It stands for a missing `Status` and for a `NaN` result.
- `Ascii` (ascii.dfy): lower-casing.
- `Seqs` (seqs.dfy): `Filter` (the model of `Array.prototype.filter`), the subsequence relation, `FoldSum` (the model of `reduce`) and the mathematical `Sum`.
- `Assets` (assets.dfy): record types, status normalisation and the mappers.
- `Faults` (faults.dfy): the fault extractor.
- `Metrics` (metrics.dfy): the calculator.
- `Pipeline` (pipeline.dfy): end-to-end facts and a worked scenario.

Numbers are exact reals. When the source divides by an empty count, the result is `NaN`; here it is `None`. This affects the two averages and the health percentage.

Two behaviours of the code are easy to miss:

- `Status?.toLowerCase() || 'unknown'` also turns an empty `Status` string into "unknown", because `''` is falsy.
- `networkHealth` uses the fraction of records whose status is exactly "normal", so "unknown" and any other status lower it.

## Model

| member | source | states |
|---|---|---|
| Ascii.ToLower | harareData.ts:64 | Lower-casing keeps the length and maps each character on its own. The result has no upper-case letter. |
| Ascii.ToLowerFixesExactlyLower | harareData.ts:64 | Lower-casing leaves a string unchanged exactly when it has no upper-case letter (both directions). |
| Ascii.ToLowerIdempotent | harareData.ts:64 | Lower-casing an already lower-cased status changes nothing. |
| Ascii.ToLowerEmptyIff | harareData.ts:64 | `toLowerCase()` yields the falsy empty string exactly for an empty status, so that is the only string the `|| 'unknown'` fallback replaces. |
| Assets.NormaliseStatus | harareData.ts:64 | A present, non-empty `Status` becomes its lower-case form. An absent or empty one becomes "unknown". The result is never empty and never holds an upper-case letter. |
| Assets.NormaliseStatusIdempotent | harareData.ts:75 | Normalising an already normalised status gives the same status back. |
| Assets.MapNodes | harareData.ts:45-66 | There is one node record per input feature, and record i is built from feature i (length and order are kept). |
| Assets.MapPipes | harareData.ts:68-79 | There is one pipe record per input feature, and record i is built from feature i. |
| Assets.MapNodesFields | harareData.ts:45-66 | `id` and `node_id` both come from `properties.node_id`. Pressure and demand are copied and the geometry is passed through. The status is the normalised `Status`: "unknown" when it is missing or empty, and lower-case in every case. |
| Assets.MapPipesFields | harareData.ts:68-79 | `velocity` comes from the capitalised `Velocity` key, and `flow_rate` and `line_id` are copied. The geometry is passed through and the status is normalised as for nodes. |
| Seqs.Filter | harareData.ts:135-136 | Every kept element is in the input and satisfies the predicate, every input element that satisfies it is kept, and the result is never longer than the input. How often each element is kept is stated by `Seqs.FilterMultiset`. |
| Seqs.FilterIsSubsequence | harareData.ts:135-136 | A filter's result keeps the input's relative order: it is a subsequence of the input. |
| Seqs.FilterMultiset | harareData.ts:135-136 | A filter keeps every occurrence of a satisfying element and no occurrence of any other. Together with `Seqs.FilterIsSubsequence`, this determines the result exactly. |
| Seqs.FilterAppend | harareData.ts:85-86 | Filtering a concatenation is the concatenation of the filtered parts. |
| Seqs.FilterLengthCountsIndices | harareData.ts:85-86 | A filter's length is the number of positions whose element satisfies the predicate. |
| Seqs.FilterOfFilter | harareData.ts:112-118 | Filtering on "faulty" and then on a threshold is the same as filtering once on "faulty and above the threshold". |
| Seqs.FilterUnionLength | harareData.ts:84-95 | For two predicates that never both hold, the two filter lengths add up to the length of the filter on their disjunction. |
| Seqs.FilterKeepsAllIff | harareData.ts:107-109 | A filter keeps every element exactly when every element satisfies the predicate. |
| Seqs.FoldSumIsSum | harareData.ts:104 | The left-to-right `reduce` with an initial value equals that value plus the mathematical sum. |
| Seqs.SumBounds | harareData.ts:98 | A sum of n values that all lie in [lo, hi] lies in [lo·n, hi·n]. |
| Seqs.MeanBounds | harareData.ts:98 | The mean of values that all lie in [lo, hi] lies in [lo, hi]. |
| Faults.GetFaultyAssets | harareData.ts:134-139 | The faulty lists hold exactly the records whose status is "faulty", each as many times as it occurs in the input, in the records' original relative order. |
| Metrics.Average | harareData.ts:98-101 | The average is defined exactly when the count is positive (otherwise `NaN`). When defined, it times the count gives back the sum. |
| Metrics.NetworkHealth | harareData.ts:107-109 | The health is defined exactly when both totals are positive (otherwise `NaN`). |
| Metrics.CalculateMetrics | harareData.ts:82-131 | The totals equal the sequence lengths, and `highPriorityIssues` is the sum of the two list lengths. Every high-priority node is a faulty input node with pressure above 30; every high-priority pipe is a faulty input pipe with flow rate above 1.5. |
| Metrics.StatusCountsBounded | harareData.ts:84-95 | For nodes and for pipes, normal + faulty + unknown is at most the total. So no record is counted twice, and an "unknown" record is counted as neither normal nor faulty. |
| Metrics.StatusCountsCountPositions | harareData.ts:84-95 | Each `normal` and `faulty` count is the number of positions holding a record with that status. |
| Metrics.FaultyAssetsMatchCounts | harareData.ts:135-136 | The fault extractor's lists are exactly as long as the calculator's faulty counts. |
| Metrics.HighPrioritySelection | harareData.ts:112-118 | The high-priority lists are the faulty lists filtered in order by the strict thresholds. A faulty record is selected exactly when its pressure is above 30 (its flow rate above 1.5), so a value equal to the threshold is excluded. |
| Metrics.SumsAndAverages | harareData.ts:97-104 | `totalDemand` is the sum of the node demands. Each average is defined exactly for a non-empty collection, where it is the sum divided by the count. |
| Metrics.AveragePressureInRange | harareData.ts:98 | When every node pressure lies in [lo, hi], the average pressure is defined and lies in [lo, hi]. |
| Metrics.FractionBounds | harareData.ts:107-109 | A count out of a positive total is a fraction in [0, 1], and it is 1 exactly when the count is the total. |
| Metrics.NetworkHealthRange | harareData.ts:107-109 | The health is defined exactly when there is a node and a pipe, and then it lies in [0, 100]. It is exactly 100 exactly when every node and every pipe is "normal". |
| Pipeline.UnknownNodeStatusCountsAsNeither | harareData.ts:64-88 | A node feature whose `Status` is absent or empty maps to an "unknown" record. That record is in neither the normal filter, the faulty filter nor the fault list. |
| Pipeline.UnknownPipeStatusCountsAsNeither | harareData.ts:75-95 | A pipe feature whose `Status` is absent or empty maps to an "unknown" record. That record is in neither the normal filter, the faulty filter nor the fault list. |
| Pipeline.TwoNodesOnePipeScenario | harareData.ts:82-131 | The inputs are two nodes (pressure 40 faulty, pressure 10 normal) and one faulty pipe with flow rate 2.0. They give node counts {1, 1, 2}, pipe counts {0, 1, 1}, an average pressure of 25, one high-priority node, one high-priority pipe and 2 issues. |

## Left out

- The global lookups `(window as any).json_harare_nodes2_2` and `json_harare_pipes_1` are environment input. The feature collections are parameters instead.
- IEEE-754 arithmetic is not modelled: numbers are exact reals. A division by an empty count is `None` rather than `NaN`, and rounding in the sums and ratios is not modelled.
- Ascii.ToLower: only 'A'..'Z' are mapped. JavaScript's `toLowerCase` follows the full Unicode case tables. Status values are ASCII words.
- A `Status` that is present but not a string is not modelled. The source would throw a TypeError from `toLowerCase` on it. `Status` is an optional string, and `null` and `undefined` are both `None`.
- Missing numeric or name properties are not modelled. The source copies them as `undefined`, which would make the sums `NaN`. Every copied property is present here.
- A feature without `properties` is not modelled; the source would throw when reading it.
- Geometry is passed through as a typed value. Its contents play no part in any logic.
- The pipes' references to node identifiers are not checked. The source does not check them either.
