# ir-tools ranking-run logic in Dafny

This project models four small command-line tools of the `ir-tools`
information-retrieval toolkit, and proves what each one computes.

- **`fuse_linear.py`: linear fusion of TREC runs.**
  - Parses each run line into (query, document, score).
  - Adds `weight * score` per (query, document) across the runs.
  - Sorts each query's documents by fused score, and the queries by the
    numeric value of their id.
  - Numbers the documents of each query from 1.
  - Sweep mode enumerates every weight vector of 0.0, 0.1, …, 1.0 that sums
    to 1 (`sum_to_number`).
- **`rm3_cv.py`: cross-validated parameter selection.**
  - `load_all_evals` enumerates the Cartesian product of the parameter
    values and keeps the settings whose evaluation file exists. It sorts
    the query ids numerically when every id is an integer, lexically
    otherwise.
  - `cv` splits the queries into `k` contiguous folds (KFold without
    shuffling).
  - In each fold it picks the first setting with the largest mean training
    value, and records that setting's test-query values.
  - It reports a query-weighted aggregate. `parse_cv_params`,
    `split_and_convert` and `param_to_str` are modelled too.
- **`scripts/ttest_eval.py`: alignment of `trec_eval -q` outputs.**
  - Parses every line of every file. It skips comments and `all` lines, and
    switches for good to the `rbp=` parser at the first line that needs it.
  - Intersects the metric sets of the files.
  - For each common metric, cuts every file down to the query ids shared by
    all files, and orders the rows by metric name.
- **`scripts/sample.py`: key/value sampling.**
  - Groups lines by a delimited key field, in order of first appearance.
  - Keeps the front or back `n` keys and/or the front or back `n` lines per
    key, with Python's slice semantics (including `s[-0:]`).

One module per tool (`FuseLinear`, `Rm3Cv`, `TtestEval`, `Sample`) sits on a
few shared modules:

| module | models |
|---|---|
| `Wrappers` | `Option` and `Result` |
| `Seqs` | sums, `Distinct` (first-appearance de-duplication), `NoDup`, `Flatten` |
| `Text` | `str.split(c)`, `str.split()`, `str.strip()`, `in` on strings, code-point order |
| `Sorting` | Python's stable `sorted` as insertion sort by a total preorder |
| `Assoc` | an insertion-ordered `dict`, as key order plus a map |

Each loop that fills a dictionary or a list is a `method` with loop
invariants. The method is proved equal to a recursive specification function,
and the properties are lemmas about that function.

Things the model takes as parameters, because they are not logic:
- `float()` and `int()` on strings: functions `string -> Option<real>` and
  `string -> Option<int>`;
- the `rbp_parse` regular-expression match: the captured groups or none;
- the existence and contents of evaluation files: `string -> Option<table>`;
- file contents: sequences of lines.

Where the program text and its documentation disagree, the model follows the
program. `fuse` sorts the documents of a query **ascending** by fused score
(`key=itemgetter(1)` without `reverse`), so the model ranks the lowest
score first.

## Model

| member | source | states |
|---|---|---|
| FuseLinear.ParseFileWeight | fuse_linear.py:12-18 | Without `:` the result is `(s, 1.0)`. With `:` it succeeds exactly when the text splits into two parts and the weight parses, and the file name then holds no `:` |
| FuseLinear.ParseFileWeightJoin | fuse_linear.py:12-18 | Round trip: `f:w` parses back to `(f, float(w))` |
| FuseLinear.ParseFileWeightTwoColons | fuse_linear.py:13-14 | A string with two colons is rejected, because the two-way unpacking fails |
| FuseLinear.ParseReals | fuse_linear.py:21-22 | Succeeds exactly when every part parses; the values come in order, one per part |
| FuseLinear.FloatCommaListJoin | fuse_linear.py:21-22 | Round trip: a comma-joined list of numbers parses back to those numbers, one per item, in order |
| FuseLinear.PairRuns | fuse_linear.py:49-51 | Weights are rejected exactly when their count differs from the run count; otherwise runs and weights are paired in order (`zip`) |
| FuseLinear.SumToNumberExact | fuse_linear.py:81-89 | Sound and complete: a sequence is listed exactly when it has length `n`, sums to `target` and uses only candidates (for `n == 1`: `[target]` exactly when `target` is a candidate) |
| FuseLinear.SumToNumberOrdered | fuse_linear.py:85-89 | With distinct candidates, the output is strictly increasing in lexicographic candidate order, so no sequence is listed twice |
| FuseLinear.ExtendEachMember | fuse_linear.py:86-88 | The loop lists `[c] + a` exactly for a remaining candidate `c` and an `a` in the recursive answer for `target - c` |
| FuseLinear.ExtendEachIncreasing | fuse_linear.py:86-88 | The loop's output is lexicographically increasing |
| FuseLinear.SweepWeightsSumToOne | fuse_linear.py:96-97 | Every sweep weight vector has one weight per run; each weight is a multiple of 0.1 in [0, 1], and the weights sum to 1 |
| FuseLinear.ScaleSum | fuse_linear.py:97 | Dividing every weight by 10 divides their sum by 10 |
| FuseLinear.ParseRunLine | fuse_linear.py:60 | A line without exactly six fields is an error. Otherwise it parses exactly when field 4 is a number, giving fields 0 and 2 and that score |
| FuseLinear.ParseRunOk | fuse_linear.py:59-60 | A run parses exactly when every line does; the entries are then the parsed lines in order |
| FuseLinear.ParseRunFirstError | fuse_linear.py:59-60 | A failed run reports the error of its first bad line |
| FuseLinear.ParseRunsOk | fuse_linear.py:58-60 | All runs parse exactly when each does; each keeps its weight |
| FuseLinear.ParseRunsFirstError | fuse_linear.py:58-60 | Failure reports the error of the first bad run |
| FuseLinear.Accumulate | fuse_linear.py:57-62 | The nested score table stays a well-formed ordered dictionary of ordered dictionaries |
| FuseLinear.AddScoreValid | fuse_linear.py:61-62 | One `setdefault`/`+=` step keeps the nested table well formed |
| FuseLinear.AccumulateTabulates | fuse_linear.py:57-62 | The table has the queries in first-appearance order; each query has its documents in first-appearance order, each mapped to the sum of its weighted scores |
| FuseLinear.AddScoreTabulates | fuse_linear.py:61-62 | One input line keeps the table exact for all lines read so far |
| FuseLinear.ScoreSumIsWeightedSum | fuse_linear.py:58-62 | Linearity: the fused score of (q, d) is the sum over the runs of weight times that run's score for (q, d) |
| FuseLinear.RunScoreAbsent | fuse_linear.py:58-62 | A run with no line for (q, d) contributes 0 |
| FuseLinear.WeighScore | fuse_linear.py:62 | A run's weighted contribution to (q, d) is the weight times the run's own sum for (q, d) |
| FuseLinear.ScoreSumAppend | fuse_linear.py:58-62 | Scores of two line sequences add up |
| FuseLinear.ScoreRuns | fuse_linear.py:57-62 | The accumulation loop returns the first parse error, or the table of all weighted lines |
| FuseLinear.ScoreRun | fuse_linear.py:59-62 | The inner loop over one run's lines adds that run's weighted entries to the table, or stops at the first bad line |
| FuseLinear.KeyBlocks | fuse_linear.py:64-67 | The comprehension with its `float(qno)` keys succeeds exactly when every query id is a number; block `i` is then query `i` with its documents sorted by score |
| FuseLinear.KeyBlocksFails | fuse_linear.py:64-67 | On failure the error names the first query id, in table order, that is not a number |
| FuseLinear.InsertedSpec | fuse_linear.py:57-65 | The documents of a query, before sorting: no document twice; each paired with its weighted sum over the runs; exactly the documents that some run lists for that query |
| FuseLinear.RankedDocs | fuse_linear.py:65 | Sorted documents are a permutation of the query's documents, in non-decreasing score order, with ties in insertion order |
| FuseLinear.RankingOrdered | fuse_linear.py:64-67 | Queries come out in non-decreasing numeric order of their ids |
| FuseLinear.RankingQueries | fuse_linear.py:64-67 | Every query that appears in some run is output once, and no other query |
| FuseLinear.RankingDocs | fuse_linear.py:64-67 | Each output query carries `float(qid)` as key and its documents sorted ascending by fused score |
| FuseLinear.KeyBlocksFacts | fuse_linear.py:64-66 | Before sorting, the blocks are the table's queries in table order, each once |
| FuseLinear.RankedBlock | fuse_linear.py:64-67 | Every block of the comprehension has the numeric key of its id and its sorted documents |
| FuseLinear.EmitDistinct | fuse_linear.py:69-76 | When each query id occurs once, its documents are numbered 1, 2, …, m in sorted order, with no gaps or repeats |
| FuseLinear.FusedLines | fuse_linear.py:56-78 | The lines written are, query by query in ranking order, the query's documents in score order with ranks 1..m and their fused scores |
| FuseLinear.WriteBlock | fuse_linear.py:72-76 | Writing one query's documents appends its ranked lines and advances `current_rank` for that query only |
| FuseLinear.WriteRanked | fuse_linear.py:69-76 | The output loop writes exactly the ranked lines of every block, ranks counted per query id |
| FuseLinear.Fuse | fuse_linear.py:56-78 | `fuse` returns the lines described by `FusedLines`, or the first parse error or non-numeric query id |
| Rm3Cv.SplitAndConvertJoin | rm3_cv.py:37-38 | Round trip: a comma-joined list comes back converted, one item per part, in order |
| Rm3Cv.ParseField | rm3_cv.py:123-124 | A field parses exactly when it has one `:`, giving the name and its `|`-separated values |
| Rm3Cv.ParseFields | rm3_cv.py:122-124 | All fields parse exactly when each does; fields in order |
| Rm3Cv.ParseCvParamsRender | rm3_cv.py:121-125 | Round trip: `f:a|b,g:c` parses back to `[(f,[a,b]),(g,[c])]`, keeping field and value order |
| Rm3Cv.RenderFieldParses | rm3_cv.py:123-124 | One rendered field parses back to itself |
| Rm3Cv.PadLeft | rm3_cv.py:49 | `'{:>4}'` right-aligns a value in at least four columns, padding with spaces on the left |
| Rm3Cv.ParamToStrCons | rm3_cv.py:48-49 | `param_to_str` is the padded values joined by `", "`; names are not printed |
| Rm3Cv.ProductMem | rm3_cv.py:154 | A setting is in the product exactly when it picks one value from each list, position by position |
| Rm3Cv.ProductSize | rm3_cv.py:154 | The product has as many settings as the product of the list lengths |
| Rm3Cv.ConsEachMem | rm3_cv.py:154 | One product step prefixes each value to each tail |
| Rm3Cv.ConsEachSize | rm3_cv.py:154 | One product step multiplies the counts |
| Rm3Cv.Zip | rm3_cv.py:155 | `zip` pairs names and values position by position, up to the shorter length |
| Rm3Cv.LoadedSpec | rm3_cv.py:154-167 | The grid holds exactly the settings whose file exists, each with its table, in enumeration order; a missing file leaves no entry |
| Rm3Cv.AvailableMem | rm3_cv.py:154-161 | A setting is available exactly when it is enumerated and its file exists |
| Rm3Cv.UnionAfterPut | rm3_cv.py:166-167 | `all_queries` stays the union of the query ids of the stored tables |
| Rm3Cv.SortQueryIds | rm3_cv.py:171-174 | The ids, each once. In numeric order when every id is an integer, otherwise in strictly increasing code-point order |
| Rm3Cv.SortByInt | rm3_cv.py:172 | `sorted(key=int)` is a duplicate-free permutation in non-decreasing integer order |
| Rm3Cv.LoadGrid | rm3_cv.py:154-168 | The loop over the settings builds the grid `Loaded` describes, and `all_queries` is exactly the set of ids in its tables |
| Rm3Cv.LoadAllEvals | rm3_cv.py:147-175 | Fails exactly on an empty parameter list. Otherwise returns the loaded grid with every table well formed, and the union of its ids sorted as in `SortQueryIds` |
| Rm3Cv.FoldStartClosed | rm3_cv.py:55-56 | Test fold `i` starts at `i * (n / k) + min(i, n % k)`: the first `n % k` folds are one larger |
| Rm3Cv.FoldBounds | rm3_cv.py:55-56 | The folds start at 0 and end at `n` |
| Rm3Cv.KFoldTiles | rm3_cv.py:55-58 | The test folds tile `0..n` contiguously; none is empty; sizes differ by at most one |
| Rm3Cv.FoldStartMono | rm3_cv.py:55-56 | Later folds start later, after the earlier ones end |
| Rm3Cv.FoldOf | rm3_cv.py:55-58 | Every position lies in some test fold |
| Rm3Cv.FoldHolding | rm3_cv.py:55-58 | Every query is a test query of some fold |
| Rm3Cv.FoldUnique | rm3_cv.py:55-58 | No position lies in two test folds |
| Rm3Cv.TestDisjoint | rm3_cv.py:55-58 | With distinct queries, no query is tested in two folds |
| Rm3Cv.TrainTestSplit | rm3_cv.py:57-58 | Train and test of a fold together are exactly the queries (as a multiset) |
| Rm3Cv.SelectMem | rm3_cv.py:63-66 | The comprehension keeps exactly the pairs whose query is in the list |
| Rm3Cv.NpMean | rm3_cv.py:63-66 | `np.mean` is defined (not NaN) exactly for a non-empty list |
| Rm3Cv.MaxIndexSpec | rm3_cv.py:69 | `max(key=itemgetter(1))`: a NaN first measure wins. Otherwise the winner is a number, no number is larger, and every earlier number is smaller (first maximum) |
| Rm3Cv.ParamResult | rm3_cv.py:61-67 | `param_result` lists every setting in grid order with its training measure |
| Rm3Cv.FoldBest | rm3_cv.py:61-69 | The fold's best setting is the grid's first maximum of the training measures, with that measure as `best_train` |
| Rm3Cv.TestedIn | rm3_cv.py:70-74 | A fold's test values are exactly the best setting's values for its test queries |
| Rm3Cv.RunFold | rm3_cv.py:56-81 | One iteration of the fold loop computes that fold's outcome |
| Rm3Cv.RunFolds | rm3_cv.py:53-81 | The fold loop builds `per_fold` and `per_query` from the outcomes of folds 0..k-1, in order |
| Rm3Cv.CollectItems | rm3_cv.py:75-79 | When folds test disjoint queries, `per_query` holds exactly every fold's writes, in order, none overwritten |
| Rm3Cv.CollectValid | rm3_cv.py:75-79 | `per_query` stays a well-formed ordered dictionary |
| Rm3Cv.PerQueryExact | rm3_cv.py:70-79 | A query is in `per_query` exactly when its fold's best setting has a value for it, and maps to that value and setting |
| Rm3Cv.PerQueryQueries | rm3_cv.py:75-79 | Only listed queries enter `per_query` |
| Rm3Cv.CvPerFold | rm3_cv.py:80-81 | `per_fold` has one entry per fold, in fold order: (best_train, test mean, best setting) |
| Rm3Cv.FoldWeight | rm3_cv.py:80 | A fold's test values sum to its test mean times their count |
| Rm3Cv.WritesSum | rm3_cv.py:85 | The values in `per_query` sum to the count-weighted fold means, and there are as many as test values |
| Rm3Cv.AggQueryWeighted | rm3_cv.py:85 | The aggregate is the query-weighted mean of all test values, not the mean of fold means; NaN exactly when no fold had a test value |
| Rm3Cv.Cv | rm3_cv.py:52-86 | `cv` rejects fewer than 2 folds, more folds than queries and an empty grid; otherwise it returns the fold loop's results |
| TtestEval.TrecParse | scripts/ttest_eval.py:46-49 | Fewer than three fields is an error. Otherwise it succeeds exactly when field 2 is a number, giving (field 0, field 1, [value]) |
| TtestEval.RbpParse | scripts/ttest_eval.py:32-43 | No match is an error. Otherwise it succeeds exactly when both numbers parse, giving `rbp_{p}@{depth}`, the query id and [value, residual] |
| TtestEval.RbpNameSplit | scripts/ttest_eval.py:42 | The rbp name keeps `p` and the depth apart |
| TtestEval.RbpNameInjective | scripts/ttest_eval.py:42 | Different (p, depth) pairs give different metric names |
| TtestEval.ToFloat | scripts/ttest_eval.py:40-41 | `float()` succeeds exactly when the text is a number |
| TtestEval.Load | scripts/ttest_eval.py:71-87 | The parse loop computes `LoadFiles`: every line of every file in order |
| TtestEval.CommentsIgnored | scripts/ttest_eval.py:76-77 | Lines starting with `#` change nothing |
| TtestEval.LoadLinesAppend | scripts/ttest_eval.py:75-87 | One more line is one more step, unless an earlier line failed |
| TtestEval.LoadLinesRbp | scripts/ttest_eval.py:73-79 | After a file, the rbp parser is in use exactly when it was before or some non-comment line of the file contains `rbp=` |
| TtestEval.LoadFilesRbp | scripts/ttest_eval.py:73-79 | The switch carries across files: after all files it is on exactly when some non-comment line of some file contains `rbp=` |
| TtestEval.LoadFilesFails | scripts/ttest_eval.py:74-81 | The first line that fails to parse ends the whole run with its error |
| TtestEval.StepKeeps | scripts/ttest_eval.py:76-87 | Each line keeps the state consistent: no `all` records, `file_metrics` lists exactly the metrics stored per file, tables well formed |
| TtestEval.KeepKeeps | scripts/ttest_eval.py:82-87 | Storing a record (or skipping an `all` record) keeps the state consistent |
| TtestEval.StoreValid | scripts/ttest_eval.py:85-87 | The nested `setdefault` stores the value under metric, file and query id, and keeps the tables well formed |
| TtestEval.StoreNoAll | scripts/ttest_eval.py:82-87 | No record for query `all` is ever stored |
| TtestEval.StoreAgrees | scripts/ttest_eval.py:84-87 | `file_metrics` and `results` stay in step |
| TtestEval.LoadFilesKeeps | scripts/ttest_eval.py:71-87 | After all files the state is consistent |
| TtestEval.IntersectionMem | scripts/ttest_eval.py:89 | `set.intersection(*ss)` holds exactly what every set holds |
| TtestEval.UnionMem | scripts/ttest_eval.py:100 | `set.union(*ss)` holds exactly what some set holds |
| TtestEval.CommonMetrics | scripts/ttest_eval.py:89 | A metric is common exactly when every file with records lists it |
| TtestEval.CommonHasTables | scripts/ttest_eval.py:98-99 | A common metric has a table for every file |
| TtestEval.SharedQids | scripts/ttest_eval.py:101 | A query id is in the intersection exactly when every file has it |
| TtestEval.AnyQids | scripts/ttest_eval.py:100 | A query id is in the union exactly when some file has it |
| TtestEval.QidBounds | scripts/ttest_eval.py:100-101 | Each file's ids lie between the intersection and the union |
| TtestEval.PopAll | scripts/ttest_eval.py:105-106 | Popping the ids leaves exactly the other ids, with their values |
| TtestEval.CutFiles | scripts/ttest_eval.py:104-106 | After popping union minus intersection, every file keeps exactly the shared ids with its own values, files in the same order |
| TtestEval.AlignMetric | scripts/ttest_eval.py:99-108 | A row: files cut to the shared ids, the sorted shared ids, and the removed ids equal to union minus intersection |
| TtestEval.AlignRows | scripts/ttest_eval.py:98-108 | One aligned row per common metric, in the given order |
| TtestEval.Align | scripts/ttest_eval.py:71-125 | Parse errors and "no records" are reported, and the alignment succeeds exactly when every file parses and some file has a record. Then: the common metrics; each file's disregarded set is its own minus the common set; one aligned row per common metric, in strictly increasing metric order |
| Sample.ToZeroBase | scripts/sample.py:12-16 | Non-integers and values below 1 are rejected; otherwise the result is the value minus 1 |
| Sample.Classify | scripts/sample.py:45-48 | A whitespace-only line is skipped; a line without field `key_field` fails; any other line is filed under that field of its stripped, split text |
| Sample.Group | scripts/sample.py:43-48 | The grouping loop computes `Grouped` |
| Sample.GroupedErr | scripts/sample.py:47-48 | Grouping fails exactly when some non-blank line lacks the key field, and the error names the first such line |
| Sample.GroupedFails | scripts/sample.py:44-48 | After a failing line, later lines change nothing |
| Sample.GroupedSpec | scripts/sample.py:43-48 | The keys are the distinct keys in first-appearance order, and each key holds exactly its lines, unchanged and in input order |
| Sample.KeysInMem | scripts/sample.py:48 | A key occurs exactly when some line is filed under it |
| Sample.WithKeyMem | scripts/sample.py:48 | A line is in a key's group exactly when it is filed under that key |
| Sample.PickSpec | scripts/sample.py:52-59 | `front` keeps the first `min(len, n)`. `back` keeps the last `n`, and everything when `n == 0` (`s[-0:]`). The result is always a contiguous slice |
| Sample.SelectKeysSpec | scripts/sample.py:50-62 | Key selection keeps the picked keys in original order, each with its original lines |
| Sample.SelectRun | scripts/sample.py:62 | Filtering by a contiguous run of keys gives exactly that run |
| Sample.FilterInRun | scripts/sample.py:62 | Keeping the items of a duplicate-free list that lie in one of its slices gives that slice |
| Sample.FilterInMem | scripts/sample.py:62 | The filter keeps exactly the items in the kept set |
| Sample.PickValues | scripts/sample.py:64-78 | Value selection keeps every key and keeps the dictionary well formed |
| Sample.SelectValues | scripts/sample.py:64-78 | The value loop truncates each key's lines with `Pick`, key order unchanged |
| Sample.PickedAll | scripts/sample.py:65-78 | After the loop, `outputs` is every key with its picked lines |
| Sample.Emit | scripts/sample.py:80-81 | The output is the groups' lines concatenated in key order |
| Sample.Sample | scripts/sample.py:41-81 | `main` computes `SampleSpec` |
| Sample.SampleOutput | scripts/sample.py:43-81 | The output is the concatenation, over the selected keys in first-appearance order, of each key's lines, picked when values are selected |
| Sample.EmitGroups | scripts/sample.py:64-81 | The emitted groups are each key's lines, picked when values are selected |
| Sorting.SortSorted | fuse_linear.py:64-67 | `sorted` returns a sequence in order of the key |
| Sorting.Sort | fuse_linear.py:64-67 | `sorted` returns a permutation of its input |
| Sorting.SortStable | fuse_linear.py:64-67 | `sorted` is stable: equal keys keep their input order |
| Sorting.SortedStrings | scripts/ttest_eval.py:108 | `sorted` of a set of strings: each element once, in strictly increasing code-point order |
| Text.Split | fuse_linear.py:14 | `str.split(c)` returns at least one part, and no part holds `c` |
| Text.JoinSplit | fuse_linear.py:14 | Joining the parts of a split gives the text back |
| Text.SplitJoin | rm3_cv.py:122-124 | Splitting a join of separator-free parts gives the parts back |
| Text.WordsAreWords | fuse_linear.py:60 | `str.split()` gives non-empty fields without whitespace |
| Text.WordsCover | fuse_linear.py:60 | The fields of `str.split()` are the text with its whitespace removed |
| Text.Strip | scripts/sample.py:45-47 | `strip()` returns a substring without leading or trailing whitespace, empty exactly for all-whitespace text |
| Text.ContainsAt | scripts/ttest_eval.py:78 | `"rbp=" in line` holds exactly when the text occurs at some position |
| Seqs.Distinct | scripts/sample.py:48 | First-appearance de-duplication holds each element of the input exactly once |
| Seqs.DistinctSnoc | scripts/sample.py:48 | A new key is appended; a known one changes nothing |
| Assoc.PutValid | scripts/sample.py:48 | Storing under a new key appends it to the key order; an existing key keeps its place |
| Assoc.ItemsExact | rm3_cv.py:62-64 | `items()` lists exactly the stored pairs |
| Assoc.PutAllFresh | rm3_cv.py:75-79 | `update` with new, distinct keys appends its pairs to the items in order |
| Assoc.PutAllValid | rm3_cv.py:75-79 | After `update`, the keys are the old keys plus the new ones |

## Left out

- File reading and writing, the sweep output file names, stdout/stderr messages, logging, `configparser` and `argparse` plumbing: I/O, not logic. Runs and evaluation files are sequences of lines; results are sequences of records (no text formatting such as `{:.5f}`, `{:.3f}` or `format_value`).
- The `ProcessPoolExecutor` of `load_all_evals`: the files are loaded sequentially in enumeration order. In the scripts the grid's key order is the order in which the workers complete, so `cv`, which takes the first best setting in that order, may break a tie between equally good settings differently from run to run; the model fixes the product (enumeration) order instead. Which settings are stored and the table of each do not depend on completion order.
- pandas (`load_eval`, the DataFrame LaTeX/CSV output), scipy's `ttest_rel`/`f_oneway` and the per-file `np.mean` in `ttest_eval`: foreign libraries over floats. The aligned rows stop where the statistics would start.
- `KFold(shuffle=True)`, `np.random.choice` and the `random` selection of `sample.py`: randomness. Only `shuffle=False` and the `front`/`back` selections are modelled.
- The regular expression of `rbp_parse` and the `float()`/`int()` conversions: parameters, as described above.
- Floating point: scores, weights and means are exact reals. NaN from `np.mean([])` is modelled as an absent value (`None`), with the comparison behaviour of Python's `max` on NaN.
- Dictionaries of query values keyed by query id are Dafny maps. Their internal order is not modelled where the source never depends on it.
- `tqdm` progress bars: output only.
- The `data = sorted(data)` of `ttest_eval` sorts tuples that start with the metric name. The model orders rows by metric name, which is the same order because metric names are distinct.
- `scripts/cleanit.py`, `irtools/eval/histplot.py` and `setup.py` are not part of this model: a wrapper over code not shown, plotting, and packaging.
- Sample.Classify: the delimiter is one character; `sample.py` accepts a multi-character `--delimiter`.
- Sample.GroupedSpec: line classification is a parameter `kind` in the grouping lemmas. `Sample` instantiates it with `Kind(delim, field)`.
- Sample.GroupedErr: the `IndexError` of a missing key field is modelled as an error that names the offending line.
- FuseLinear.SumToNumberExact: requires `n >= 1`. With `n == 0` the source recurses without end, and `main` always passes the number of runs, which is at least one.
- Rm3Cv.Cv: `max` over an empty grid and `KFold` argument errors are modelled as error results instead of exceptions.
