# celltypist core, modelled in Dafny

A verified model of the discrete logic in celltypist, a tool that annotates
single cells with cell types using a linear classifier.

- **Prediction** (`celltypist/classifier.py`):
  - keep the input genes the model knows, in input order, and locate each one in the model's gene list;
  - standardise the data with the model's mean and scale of those genes, then clip above at 10;
  - restrict the shared classifier to the kept genes;
  - choose the default over-clustering resolution from the number of cells;
  - majority-vote within clusters;
  - summarise label frequencies;
  - package the result.
- **Training** (`celltypist/train.py`):
  - check the shapes of labels and genes;
  - drop genes that no cell expresses, keeping genes and columns in lockstep;
  - scale and clip;
  - run the mini-batch schedule of partial fits;
  - select features as the union of each class row's top-k absolute weights;
  - cut genes, data and scaler vectors by one index;
  - package the model.
- **Packaging** (`setup.py`): read the version string out of a sequence of lines, and read the requirement list.

Numbers are exact `real`s. The optimiser, the column statistics, the
prediction routine and Leiden clustering are modelled as uninterpreted
functions passed in as parameters: `Solver`, `fit`, `predict` and `leiden`.
What the model assumes about them, and what else it does not capture, is
listed under "## Left out".

Files:

- `results.dfy` (`Results`): `Option` and `Result`.
- `arrays.dfy` (`Arrays`): the numpy indexing operations used.
  - `np.where` and fancy indexing;
  - column selection and `np.clip(a_max=10)`;
  - broadcasting standardisation;
  - permutation facts.
- `strings.dfy` (`Strings`): the Python `str` behaviour used.
  - code-point order (`LexLess`);
  - `isspace` and `strip`;
  - `split` on one character, and `startswith`.
- `models.dfy` (`Models`): the model objects, as classes whose methods update their fields.
  - `SgdClassifier`, which records its fit history;
  - `StandardScaler` and `Model`.
- `classification.dfy` (`Classification`): alignment, resolution, majority voting and the frequency summary.
  - Also the classes `AnnotationResult` and `Classifier`.
- `training.dfy` (`Training`): filtering, scaling, the mini-batch schedule, feature selection, `FitClassifier` (for `_SGDClassifier`) and `Train`.
- `setup.dfy` (`Setup`): `get_version` and `get_requirements`.

Behaviour of the code that the model keeps as written:

- **Alignment order.** Kept genes stay in *input* order, not in the model's order: `k_x_idx` comes from `np.where` over the input genes.
- **Empty overlap.** The alignment code in `classifier.py` raises nothing when no input gene is known; it hands a matrix with no columns to the prediction routine (see `Classification.Classifier.Celltype` under "## Left out").
- **Model mutation.** `celltype` overwrites the shared model's `n_features_in_`, `features` and `coef_` in place, so the loaded model object is changed by prediction.
  - The scaler is **not** restricted at the same time. After `Classifier.Celltype`, the classifier describes only the kept genes, but the scaler still describes the old gene list.
  - A second `celltype` on the same model is accepted. `lr_idx` is then a position in the cut gene list, and the scaler entry at that position may belong to another gene of the model file: it does whenever the gene's position in the cut list differs from its position in the model file. Then that gene is standardised with another gene's statistics, and no error is raised. `Classifier.Valid` admits such a model, and `Classification.ReusedModelMisStandardises` shows the effect on two genes.
- **Feature selection.** It takes the union of each class row's top-k genes by absolute weight, an index that can hold up to `rows * k` genes.
- **Scaler after selection.** The scaler is not refitted after feature selection. Its vectors are cut by the same `gene_index`.

## Model

| member | source | states |
|---|---|---|
| Classification.KeptIndices | celltypist/classifier.py:244-246 | `k_x_idx` is strictly increasing (input order kept), in bounds, and holds exactly the positions of input genes found in the model's feature list |
| Classification.KeptGenesAreKnownGenes | celltypist/classifier.py:244-248 | the kept gene list equals the reference filter "input genes that the model knows, in input order" |
| Classification.KeptGenes | celltypist/classifier.py:248 | every kept gene occurs in the model's feature list, and gene `j` is the input gene at `k_x_idx[j]` |
| Classification.IndexOf | celltypist/classifier.py:249 | the position found names the gene and is its first occurrence |
| Classification.Positions | celltypist/classifier.py:249 | `features[lr_idx[j]]` is the `j`-th kept gene, so picking the features by `lr_idx` gives the kept gene list back |
| Classification.PositionIsUnique | celltypist/classifier.py:249 | with a repeat-free model gene list, the position `lr_idx` finds is the only one naming the gene |
| Classification.AlignedInput | celltypist/classifier.py:247-256 | the matrix handed to the classifier has one column per kept gene and no entry above 10 |
| Classification.AlignedEntry | celltypist/classifier.py:247-256 | entry `(i, j)` is `min(10, (x[i][k_x_idx[j]] - mean[p]) / scale[p])`, where `p` is the position of that same gene in the classifier's gene list, also when the scaler's vectors are longer than that list; there is no lower clip |
| Arrays.ClipAbove | celltypist/classifier.py:256 | every entry is at most the bound; entries at or below it are unchanged; larger entries become the bound |
| Arrays.StandardizeInverts | celltypist/classifier.py:252-255 | every standardised entry maps back to the raw value (`z * scale + mean == x`), and a value equal to the mean standardises to 0 |
| Classification.AlignedSingleCut | celltypist/classifier.py:249-253 | A classifier whose genes were cut to the single gene `g` standardises `g` with the scaler's first entry, whichever gene that entry was fitted on. |
| Classification.ReusedModelMisStandardises | celltypist/classifier.py:249-259 | The model file has genes `a` and `b` with means 0 and 5. On an input of `b` alone with value 5, the first call keeps `[b]`, reads position 1 (mean 5) and aligns the value to 0. The second call on the cut model reads position 0, `a`'s mean, and aligns the same value to 5. |
| Classification.Classifier.AlignInput | celltypist/classifier.py:244-256 | The gene list becomes the known input genes in input order. The data becomes the aligned, clipped matrix, still one row per cell. The positions returned are `lr_idx`, the model positions of the kept genes. |
| Models.SgdClassifier.Restrict | celltypist/classifier.py:258-260 | `n_features_in_` is the number of positions kept. Feature `f` is the old feature at `lr_idx[f]`, and `coef_` holds the old columns at `lr_idx`. The fit history is unchanged. |
| Classification.Classifier.Celltype | celltypist/classifier.py:244-267 | The kept genes are the known input genes, and the data is the aligned, clipped matrix. The classifier's `features` becomes those genes, `n_features_in_` their number, and `coef_` the old columns at `lr_idx`; its fit history is unchanged. The result holds the cell index and the prediction on the new data and weights. The metadata and the graph are unchanged. With repeat-free input gene names the classifier is still `Valid` afterwards, so a second call on the same model is within the model's domain. |
| Classification.DefaultResolutionBands | celltypist/classifier.py:303-311 | The default resolution is 5 below 5000 cells, 10 below 20000, 15 below 40000 and 20 otherwise. |
| Classification.DefaultResolutionMonotone | celltypist/classifier.py:303-311 | more cells never give a smaller default resolution |
| Classification.ChosenResolution | celltypist/classifier.py:303-311 | a resolution the caller gives is used unchanged; otherwise the default applies |
| Classification.Classifier.OverCluster | celltypist/classifier.py:297-316 | A neighbourhood graph exists afterwards. The returned column is the clustering at the chosen resolution. The data is unchanged, and the `over_clustering` metadata column is absent afterwards, even if it was there before. |
| Classification.VotesPositive | celltypist/classifier.py:341 | a label has a positive count in a cluster exactly when some cell of that cluster was predicted with it |
| Classification.MajorityIsUnique | celltypist/classifier.py:341-342 | at most one label is the majority of a cluster (maximal count, ties going to the label that sorts first) |
| Classification.Winner | celltypist/classifier.py:341-342 | The winner has the maximal count in the cluster. It was predicted for at least one of the cluster's cells. Among tied labels it sorts first, as the sorted crosstab rows and `idxmax` give. |
| Classification.MajorityColumn | celltypist/classifier.py:342-344 | one label per cell; each cell gets its cluster's majority label; cells of one cluster all agree |
| Classification.MajorityClearWinner | celltypist/classifier.py:341-342 | one cluster predicted `A, A, A, B` gives `A` to all four cells |
| Classification.MajorityTieGoesToFirst | celltypist/classifier.py:341-342 | one cluster predicted `A, A, B, B` gives `A` to all four cells |
| Classification.Classifier.MajorityVote | celltypist/classifier.py:341-347 | A partition whose length differs from the label count is an error, and a table that already has the two columns is an overlap error. Otherwise the same object comes back. Its cell index and `predicted_labels` are kept, and exactly the `over_clustering` and `majority_voting` columns are added. A well-formed table stays well formed. |
| Classification.AnnotationResult.constructor | celltypist/classifier.py:39-43 | `cell_count` is the number of rows of the label table |
| Classification.Unique | celltypist/classifier.py:124 | As `np.unique` gives them: the distinct labels in ascending code-point order, each once, exactly those of the column. |
| Classification.OccurrencesPositive | celltypist/classifier.py:124 | a label's count is positive exactly when it occurs in the column |
| Classification.TallyTotal | celltypist/classifier.py:124 | the counts of the distinct labels add up to the number of cells |
| Classification.InsertByCount | celltypist/classifier.py:126 | Putting one row into a list sorted by descending count keeps it sorted. The rows are the old rows plus that one, as a multiset, and the total count grows by its count. |
| Classification.InsertKeepsTypesDistinct | celltypist/classifier.py:126 | inserting a row whose label no other row has keeps every label once |
| Classification.SortByCount | celltypist/classifier.py:126 | the rows are a permutation of the input rows, sorted by descending count, with the same total |
| Classification.SortKeepsTypesDistinct | celltypist/classifier.py:126 | sorting keeps every label exactly once |
| Classification.Summary | celltypist/classifier.py:124-126 | Every label appears once, with its number of cells, and every row names a label of the column. The counts are positive and add up to the number of cells, and rows are in descending count order. |
| Classification.AnnotationResult.SummaryFrequency | celltypist/classifier.py:108-127 | the summary of the chosen column; asking for `majority_voting` before voting is the only error |
| Strings.LexLessTotal | celltypist/classifier.py:341 | the row order of the crosstab (code-point order) ranks any two different labels one way and never both |
| Strings.LexLessTransitive | celltypist/classifier.py:341 | the row order is transitive |
| Training.Train | celltypist/train.py:119-189 | See the paragraph "What `Training.Train` states" below the table. |
| Training.ExpressedColumns | celltypist/train.py:151-155 | the kept columns are ascending, in bounds, and exactly those whose sum is not zero |
| Training.FilterKeepsExpressedInLockstep | celltypist/train.py:151-155 | after the filter every column sums to non-zero; genes and columns have equal length and gene `j` still names column `j` |
| Training.NothingFlaggedKeepsAll | celltypist/train.py:152-155 | with no zero-sum column, genes and data are unchanged |
| Training.FilterGenes | celltypist/train.py:151-155 | The method, with its `flag.sum() > 0` branch, yields exactly the lockstep-filtered genes and matrix. |
| Training.Scaled | celltypist/train.py:158-160 | the scaled matrix keeps its shape and no entry exceeds 10 |
| Training.ScaledEntry | celltypist/train.py:159-160 | an entry is the clipped standard score against its own column's fitted mean and scale |
| Training.ScaleAndClip | celltypist/train.py:158-160 | a new scaler whose vectors are the per-column fitted statistics, and the data scaled and clipped |
| Training.Arange | celltypist/train.py:110 | the starts are `0, b, 2b, ...`, each below the number of cells, and every multiple of `b` below it is present |
| Training.BatchStarts | celltypist/train.py:110-111 | a zero batch size is the only error (`np.arange` step 0) |
| Training.BatchStartsShape | celltypist/train.py:110-111 | for positive batch size and number there are `min(batch_number, ceil(n / b))` starts, start `i` being `i * b < n` |
| Training.BatchStartsNegative | celltypist/train.py:110-111 | a negative batch size gives no starts; a negative batch number drops that many from the end |
| Training.FitSchedule | celltypist/train.py:102-116 | A full fit is one `fit` call. Mini-batch mode fails when the cell count is at most the batch size (equality included). A zero batch size also fails. These are the only errors. |
| Training.ShuffledIsPicked | celltypist/train.py:114 | after any number of epochs, data and labels are the original rows picked through the same origin index, so every row keeps its label |
| Training.ShuffleKeepsLabels | celltypist/train.py:114-116 | reshuffling never changes the set of labels, so every `partial_fit` gets the same `classes` |
| Training.OriginIsPermutation | celltypist/train.py:112-114 | the shuffles of any number of epochs, composed, are a rearrangement of the rows |
| Training.PickKeepsLabels | celltypist/train.py:114-116 | rearranging the labels keeps the set of labels that `np.unique(labels)` sees |
| Training.ScheduleLength | celltypist/train.py:112-116 | `e` epochs make `e * len(starts)` fits |
| Training.SchedulePrefix | celltypist/train.py:112-116 | the fits of fewer epochs are a prefix of the fits of more, so later epochs never change earlier fits |
| Training.ScheduleStep | celltypist/train.py:112-116 | Epoch `e` appends one fit per start, over the rows after one more shuffle of the previous epoch's order. That order is both the rows and the labels picked through the same permutation. |
| Training.ScheduleCall | celltypist/train.py:112-116 | Fit `k` of epoch `ep` (counted from 0) sits at position `ep * len(starts) + k`. It gets the rows at `starts[k] .. starts[k]+b` of that epoch's shuffled order, the labels of those same rows, and every input label. |
| Training.ScheduleCallIsPartial | celltypist/train.py:116 | every fit of the schedule is a `partial_fit` told every input label |
| Training.FitScheduleCounts | celltypist/train.py:110-116 | The mini-batch schedule makes `epochs * |starts|` partial fits. Each one is told every input label. |
| Training.FitEpoch | celltypist/train.py:115-116 | one `partial_fit` per start, in order, appended to the classifier's history |
| Training.FitEpochs | celltypist/train.py:112-116 | The epoch loop over a new classifier makes exactly the schedule's fits. After any fit, the weights are the solver's for that history. With no fit, the weights stay empty. |
| Training.FitClassifier | celltypist/train.py:95-117 | A fresh classifier whose fit history is the schedule, with the schedule's errors. After any fit, its weights are the solver's weights for that history on `cols` features. |
| Training.FitScheduleAsWritten | celltypist/train.py:112-116 | as written, mini-batch training with at least one epoch stops at the unbound `shuffle` |
| Training.MiniBatchAsWrittenNeverFits | celltypist/train.py:112-116 | as written, mini-batch mode never makes a single fit |
| Training.MiniBatchDefaultsExample | celltypist/train.py:107-116 | With the default parameters and 2000 cells, the code as written fails, while the intended schedule makes 20 fits. |
| Training.ArgMaxOutside | celltypist/train.py:170 | a position outside the chosen set with the largest absolute weight, and none only when every position is chosen |
| Training.TopK | celltypist/train.py:170 | exactly `k` positions, none with smaller absolute weight than a position left out |
| Training.TopKRows | celltypist/train.py:170 | one valid top-k selection per weight row |
| Training.GeneIndex | celltypist/train.py:171 | `np.unique` of the selections: ascending, in bounds, exactly the positions some row selected |
| Training.GeneIndexSize | celltypist/train.py:170-172 | with at least one row, the number of selected genes lies between `k` and `min(rows * k, n)` |
| Training.AnyTopKSelection | celltypist/train.py:170-171 | For any per-row sets of `k` largest-magnitude positions, however ties are broken, the index is strictly increasing, free of repeats and in bounds. Its size lies between `k` and `min(rows * k, n)`, and it holds every row's set. |
| Training.SelectionShape | celltypist/train.py:170-172 | The index is strictly increasing, free of repeats and in bounds. With at least one row, its size lies between `k` and `min(rows * k, n)`. |
| Training.SelectionCovers | celltypist/train.py:170-171 | every row's own top-`k` selection lies inside the index |
| Training.SelectFeatures | celltypist/train.py:168-171 | The errors come in the order the code meets them. Too few genes (`n <= top_genes`) comes first, then reading weights that were never fitted, then a `kth` outside the row. Otherwise the selection succeeds. |
| Training.SelectFeaturesProperties | celltypist/train.py:168-172 | The index is strictly increasing, free of repeats and in bounds. For every weight row it holds a set of `k` largest-magnitude positions. Here `k` is `top_genes` when positive, every gene for 0, and `n + top_genes` when negative. The size lies between `k` and `min(rows * k, n)`. |
| Training.FitRounds | celltypist/train.py:162-184 | First fit, then (with selection) the selection and a second fit on the selected columns, under the second round's own shuffles. The scaler's vectors are cut by the same `gene_index`, and `n_features_in_` is its length. The classifier is named by the selected genes. |
| Training.SecondRound | celltypist/train.py:173-182 | The second fit runs on the columns at `gene_index` and cannot fail once the first round succeeded. Its history is the schedule on those columns under the second round's own shuffles. The scaler's vectors are cut by the same index, and `n_features_in_` is its length. |
| Models.StandardScaler.FitTransform | celltypist/train.py:158-159 | per-column fitted statistics and the data standardised with them |
| Models.StandardScaler.Restrict | celltypist/train.py:179-182 | `mean_`, `var_`, `scale_` cut by one index, `n_features_in_` its length |
| Models.SgdClassifier.PartialFit | celltypist/train.py:116 | the call is appended to the history and the weights are the solver's for the new history |
| Models.SgdClassifier.Fit | celltypist/train.py:104 | the full fit is appended to the history and the weights are the solver's for it |
| Setup.GetVersion | setup.py:11-17 | the line loop with its early return computes exactly `VersionOf(lines)` |
| Setup.FirstVersionLineDecides | setup.py:13-16 | the first line starting with `__version__` decides the result; earlier lines (which may contain `__version__` elsewhere) are skipped and later ones are never examined |
| Setup.VersionNotFoundIff | setup.py:13-17 | `RuntimeError` exactly when no line starts with `__version__` |
| Setup.Delimiter | setup.py:15 | a double quote when the line has one, else a single quote |
| Setup.VersionFromLine | setup.py:15-16 | The result is the stripped text between the first and second delimiter, or up to the end of the line. A line with no quote at all is an `IndexError`. |
| Setup.RequirementsAreStrippedLines | setup.py:9 | One entry per line, in order, each that line stripped. A blank line gives the empty string, and no entry starts or ends with whitespace. |
| Strings.Strip | setup.py:9 | the result is no longer than the input and neither starts nor ends with whitespace |
| Strings.StripIsSlice | setup.py:9 | the result is one contiguous slice of the input, and what is cut at either end is whitespace only |
| Strings.StripBlank | setup.py:9 | stripping gives the empty string exactly for all-whitespace lines |
| Strings.Split | setup.py:16 | at least one piece, no piece holds the separator, and joining the pieces with it gives the input back |
| Strings.SplitSecondPiece | setup.py:16 | there is a second piece exactly when the separator occurs; it is the text up to the next separator |

### What `Training.Train` states

- A label count that differs from the row count is an error.
- A gene count that differs from the column count is also an error.
- The remaining errors are those of the first round and of the feature selection, in that order.
- On success the model is new, and:
  - its `features` are the filtered genes picked by `gene_index` (every position when there is no selection);
  - the scaler's `mean_`, `var_` and `scale_` are the fitted statistics of those same filtered columns;
  - the scaler's `n_features_in_` is `len(gene_index)`;
  - the classifier's history is the schedule on the scaled data cut to `gene_index`, and its weights have that many columns;
  - that schedule uses the shuffles `perms2` when feature selection ran, since the second fit draws its own; without selection it is the first round's, under `perms`;
  - the date defaults to the clock reading.

## Left out

- File loading, format dispatch, normalisation and transposition: these are I/O and type dispatch over library objects.
  - Loading covers `sc.read`, `pd.read_csv`, the mtx companion files, `var_names_make_unique`, `normalize_total`/`log1p`, `_prepare_data`, `_to_vector` and `_to_array`.
  - The model takes the matrix and the gene and cell lists it would produce.
- The log1p integrity check (`expm1` sum within 1 of 10000): it is floating-point numerics. It also indexes row 0, so an empty matrix fails there in the source, which is not modelled.
- The numerics of `SGDClassifier.fit`/`partial_fit`, `StandardScaler.fit_transform` and `predict_labels_and_prob` (softmax, probabilities): these are uninterpreted `Solver`, `fit` and `predict` parameters.
  - Two assumptions are made about them. A fitted scale is positive (`PositiveScales`, required by `Training.Train`). The prediction routine gives one label per input row (`OneLabelPerRow`, required by `Classification.Classifier.Celltype`).
- Neighbourhood-graph construction, PCA, UMAP and Leiden: these are external libraries.
  - `Classifier.OverCluster` records only that a graph exists afterwards, and takes the clustering as a function of the resolution.
- `celltypist/classifier.py` includes more than the core: plotting, Excel export, `to_adata` and `__str__`. These are output glue.
- Logging and the process-wide warning filters: these are global side effects with no effect on results.
- `datetime.now()`: the clock reading is the parameter `now` of `Training.Train`.
- `shuffle`: any permutation of the rows, given per epoch in `perms` for the first fit and in `perms2` for the second fit after feature selection. The same permutation is applied to data and labels.
- `Training.SelectFeatures`: it fixes `np.argpartition`'s choice among equal absolute weights. `Training.TopK` breaks ties towards the lower position, and `SelectFeatures`, `SelectFeaturesProperties` and `Training.Train` are stated for that choice. Only the index's shape and coverage are proved for any per-row top-k sets, by `Training.AnyTopKSelection`.
- The order of equal counts in `summary_frequency`: `sort_values` uses an unstable sort, so this order is unspecified. `Classification.SortByCount` fixes one order: among equal counts, the ascending label order that `np.unique` produced. The properties proved do not depend on it.
- The column names of the probability table (`classes_`), and pandas' index alignment when `over_clustering` is a `Series`.
- `Classification.Classifier.MajorityVote`: it pairs cells and clusters by position, which gives one row per cell. The source joins `majority` onto `predicted_labels` by the cell index, and a repeated cell name multiplies rows. With cells `["c", "c"]`, predictions `["A", "B"]` and clusters `["1", "1"]`, the join gives 4 rows where the model gives 2.
- Duplicate gene names in a model. `Classifier.Valid` requires the classifier's gene list to be free of repeats. With repeats, `.loc` would return several rows per gene.
- `Classification.MajorityColumn`: its contract does not itself say that a cell's label was predicted inside its cluster. That follows from `IsMajority` through `Classification.VotesPositive`.
- `Classification.Classifier.Celltype`: it assumes `OneLabelPerRow` for every matrix, including the zero-column matrix of an empty overlap, and so promises a prediction there. The prediction routine is a library call outside this model, and its input validation very likely rejects a matrix with no features; that error is not modelled.
- `Classification.Classifier.Celltype`: it does not state that the model stays a consistent model file, because it does not. The scaler keeps the old gene list while the classifier is cut to the kept genes. It states only that the model stays usable for another prediction (`Model.Usable`). It promises that only for repeat-free input gene names: with a repeated kept gene, the next `.loc` lookup would return several rows per gene.
- Integer widths: counts and indices are unbounded, which matches Python integers. Numpy's `int64` limits are not modelled.

## Findings

| source | as written | input that shows it | evidently intended | confidence | as-written member | corrected member |
|---|---|---|---|---|---|---|
| celltypist/train.py:114 | `shuffle(indata, labels)` is called, but no `shuffle` is imported or defined in `train.py`, so mini-batch training raises `NameError` before any `partial_fit` | `mini_batch = True` with the defaults `batch_size = 1000`, `batch_number = 100`, `epochs = 10` and 2000 cells | each epoch reshuffles rows and labels together (as `sklearn.utils.shuffle` does) and then fits every batch, giving 20 partial fits here | high (not executed) | Training.FitScheduleAsWritten | Training.FitSchedule |
