# Ligand-protein interaction viewer: selection and ranking, in Dafny

This project models the selection and ranking logic of the chemical-proteomics screening viewer (`app.py`). Given a selected protein, the viewer does the following:

- It cuts the protein's rows out of the first-generation (Gen1) screen table.
- It counts the rows that pass a fixed reference filter, which gives the protein's hits, best ligand and promiscuity flag.
- It applies the user's three threshold filters, on the -log10 p-value, the -log10 adjusted p-value and the confidence class `mdfClass`. If the reference result is empty, it applies no filter instead.
- It sorts the displayed view.
- It lets the user pick a ligand from that view. It then goes back to the whole, unfiltered screen table for that ligand's profile. There it ranks the selected protein among the ligand's reference hits and raises a top-5 callout.
- For a ligand on the fixed list of twenty Gen2-eligible ligands, it opens a second drill-down over the competition table:
  - the protein's competition rows are split into hits and non-hits, each sorted its own way, and offered as one selection list;
  - the profile of the picked Gen2 ligand is filtered, sorted and ranked the same way.

The Dafny files:

- `tables.dfy` (module `Tables`) holds the row type and the boolean mask `df[cond]` that every slice and filter is built from. It proves what a mask keeps (every occurrence of a passing row, none of a failing one, in order), how two masks compose, monotonicity and partition.
- `filters.dfy` (module `Filtering`) holds `applyFilters`. It is written as the source's three successive masks with their `else` fall-throughs, checked against a row-level reference table of what each option demands. It also holds the widget labels and how they are read.
- `sorting.dfy` (module `Sorting`) holds the five `sort_values` keys. A sort is specified as a permutation that is ordered by its key and stable: rows with equal keys keep their input order.
- `ranking.dfy` (module `Ranking`) holds `getVarText`. Its frame is a class: the method overwrites the frame's index with 1..n and finds the protein's rank with a loop. The module also holds the top-5 callout.
- `flags.dfy` (module `Flags`) holds the constants 407 and the Gen2 list, and the two promiscuity ratios. The ratios are restated with integer cross-multiplication and proved equal to the source's division.
- `viewer.dfy` (module `Viewer`) holds the script itself, as stage methods that rebind their frames step by step, and the whole run `DrillDown`. The tables and the widget choices are parameters.

Tables arrive already loaded. Numeric columns are exact reals and integers. Widget selections are parameters: the filter choices, and the position picked in each selectbox.

Four behaviours of the code that are easy to misread:

- The displayed view falls back to "no filter" when the fixed reference filter leaves no row (app.py:158-163, app.py:196-200, app.py:331-336). It does not fall back when the user's own choice leaves no row. So a user choice stricter than the reference can leave an empty view. No ligand can then be picked, and the source raises at app.py:204, where it concatenates the missing selection into an image path. The model returns `Raises`.
- For a Gen2-eligible ligand, a protein with no competition row under that ligand gets an empty Gen2 selection list. Nothing can be picked, and the source raises at app.py:302 in the same way. The model returns `Gen2Raises`.
- The rank used by the top-5 callout is 1-based, because getVarText relabels the index 1..n at app.py:76. It is not 0-based.
- The callout test `protRank < 5` (app.py:229) therefore fires only for ranks 1-4. The ligand view carries both flags: `calloutAsWritten`, the test as written, and `topFive`, the test as evidently intended (rank 1-5). See Findings.

## Model

| member | source | states |
|---|---|---|
| Tables.Mask | app.py:48-68 | a boolean mask never returns more rows than it was given |
| Tables.MaskMeaning | app.py:45-70 | a mask returns an order-preserving subsequence of its input that holds every occurrence of each row passing the test and no row failing it |
| Tables.MaskTwice | app.py:45-70 | masking by one test and then by another equals masking once by their conjunction |
| Tables.MaskMonotone | app.py:45-70 | masking by a test that implies another yields a subsequence of what the other yields |
| Tables.MaskKeepsAll | app.py:46-60 | a mask that every row passes returns the frame unchanged |
| Tables.MaskPartition | app.py:249-282 | masks by a test and by its negation together hold exactly the frame's rows, as multisets |
| Tables.WithAccession | app.py:112 | the protein slice is the order-preserving subsequence of the table holding exactly the rows with that accession, with their multiplicities |
| Tables.WithFragId | app.py:183-189 | the ligand slice is the order-preserving subsequence of the (unfiltered) table holding exactly the rows with that fragId |
| Tables.WithGen1Lig | app.py:244 | the Gen2 anchor slice is the order-preserving subsequence of the competition table holding exactly the rows anchored to the Gen1 ligand |
| Tables.FragIdColumn | app.py:253 | the fragId column has one entry per row and names exactly the ligands of the frame's rows |
| Tables.FragIdColumnAt | app.py:253 | the i-th entry of the column is the i-th row's fragId, so a selectbox position picks that row's ligand |
| Tables.DistinctFragIds | app.py:246 | `np.unique(df['fragId'])` as the set of the frame's ligands; no contract of its own, its bounds are Tables.DistinctFragIdsBounds |
| Tables.DistinctFragIdsBounds | app.py:246 | the number of distinct Gen2 ligands is at most the number of anchor rows, and at least one when there are rows |
| Filtering.PValueOf | app.py:46-50 | any p-value label other than 'no filter' and '< 0.05' is read as the strictest option '< 0.01' |
| Filtering.AdjPOf | app.py:52-58 | any adjusted label other than 'no filter', '< 0.05' and '< 0.1' is read as '< 0.25' |
| Filtering.ClassOf | app.py:60-68 | any class label other than 'no filter', 'Low', 'Medium (hits)' and 'Low (hits)' is read as 'High (hits)' |
| Filtering.LabelsRoundTrip | app.py:146-156 | every widget option's label is read back as that same option |
| Filtering.ApplyFiltersIsOneMask | app.py:45-70 | the three successive masks of applyFilters equal one mask by "passes every selected test" |
| Filtering.ApplyFilters | app.py:45-70 | applyFilters returns an order-preserving subsequence of its input; a row is kept, with all its occurrences, iff it passes the p-value, adjusted p-value and class tests (> 1.30103 or > 2; > 1.30103, > 1 or > 0.60206; class >= 1, >= 2 or == 3) |
| Filtering.ApplyFiltersNoFilter | app.py:45-70 | with all three choices set to 'no filter' applyFilters returns its input unchanged |
| Filtering.PassesMonotone | app.py:45-70 | a row passing a stricter choice in every dimension passes a looser one |
| Filtering.ApplyFiltersMonotone | app.py:45-70 | a stricter choice in every dimension yields a subsequence of a looser one's result ('< 0.01' within '< 0.05'; '< 0.05' within '< 0.1' within '< 0.25'; High within Medium within Low) |
| Filtering.ReferenceScenario | app.py:118 | a row with p 1.5, adjusted 0.7 and class 2 passes the reference filter '< 0.05', '< 0.25', 'Medium (hits)' |
| Sorting.Insert | app.py:167 | inserting a row into a sorted frame gives a sorted frame holding the old rows plus that row |
| Sorting.SortBy | app.py:120 | every sort_values call returns a permutation of its input that is ordered by its key |
| Sorting.SortSortedIsIdentity | app.py:167 | sorting a frame that is already ordered by the key leaves it unchanged |
| Sorting.SortIdempotent | app.py:193 | sorting twice by the same key gives the same frame as sorting once |
| Sorting.SortHeadIsBest | app.py:120-121 | the first row after a sort is a row of the input that may precede every row of it |
| Sorting.InsertStable | app.py:120 | inserting a row into a sorted frame puts it before the rows tied with it, and keeps those rows in their order |
| Sorting.SortByStable | app.py:120 | every sort is stable: the rows tied with any given row come out in their input order, as in pandas' multi-column sort |
| Sorting.SortHeadIsFirstBest | app.py:120-121 | the first row after a sort is the input's first row (in table order) that may precede every row; every row before it sorts strictly after it |
| Ranking.FirstMatch | app.py:77-79 | the position found is of a row of the protein with no such row before it, and none is found iff no row belongs to the protein |
| Ranking.Summarize | app.py:72-93 | count is the view's length; best is the first row's gene, or "No " for an empty view; a rank is reported iff the protein is in the view, and then it is 1 + the first index of its rows, so between 1 and the length |
| Ranking.GetVarText | app.py:72-93 | the frame's rows are kept; a non-empty frame's index is overwritten with the labels 1..n (app.py:76); the five returned values are Summarize of the rows, so the rank is the 1-based label of the protein's first row |
| Ranking.TopFiveAsWritten | app.py:228-229 | the callout test as written: a rank was found and it is below 5; no contract of its own, its meaning is Ranking.TopFiveAsWrittenMeansFirstFour |
| Ranking.InTopFive | app.py:228-231 | the callout test as intended: a rank was found and it is at most 5; no contract of its own, its meaning is Ranking.InTopFiveMeansFirstFive |
| Ranking.InTopFiveMeansFirstFive | app.py:228-231 | the corrected callout fires iff the protein is among the first five rows of the ligand's ranked view |
| Ranking.TopFiveAsWrittenMeansFirstFour | app.py:228-229 | the callout as written fires iff the protein is among the first four rows |
| Ranking.TopFiveAsWrittenMissesFifth | app.py:228-231 | a protein in fifth place gets rank 5, which the test as written rejects and the corrected one accepts |
| Flags.ProteinPromiscuous | app.py:140 | the integer test numLigaHits*10 > 407 holds iff numLigaHits/407 > 0.1 |
| Flags.LigandPromiscuous | app.py:208 | for a non-zero detected count, numProtHits*20 > numProtDetected holds iff numProtHits/numProtDetected > 0.05 |
| Flags.Gen2Eligible | app.py:236-237 | `fragId in gen2List`; no contract of its own, Flags.Gen2EligibleScenario exercises it |
| Flags.Gen2EligibleScenario | app.py:236-237 | C027 opens the Gen2 drill-down and Z999 does not |
| Viewer.Pick | app.py:182 | a selectbox gives nothing iff its options are empty, otherwise one of its options, the picked one when the pick is in range |
| Viewer.ShownView | app.py:158-167 | the displayed view is exactly the stable sort by its key of the user-filtered slice when the reference result was non-empty, of the whole slice otherwise; so it is sorted, a permutation of that frame, and keeps tied rows in table order |
| Viewer.ProteinStage | app.py:112-167 | nothing iff the protein has no screen row; otherwise the IsProteinView conditions: gene name of the slice's first row, slice length, reference hit count, a best ligand that is the fragId of the first row of the sorted reference hits, which by Sorting.SortHeadIsFirstBest is the first row in table order among those that sort first ("No" if none), promiscuity from the hit count, fallback iff the reference result is empty, and a displayed view that is exactly the stable (protHits, l2fc) sort of the chosen or the whole slice, so its row order, ties included, is fixed, and which holds only that protein's rows |
| Viewer.LigandStage | app.py:183-229 | the IsLigandView conditions: the profile is taken from the unfiltered table, and the stage fails iff that profile is empty (the source's 0/0); the rank summary is over the sorted reference hits of the profile; promiscuity and fallback follow from them; the displayed view is exactly the stable (ligHits, l2fc) sort of the chosen or the whole profile; `calloutAsWritten` is the test `rank < 5` of app.py:229 and `topFive` the corrected `rank <= 5` |
| Viewer.Gen2SplitPartition | app.py:248-283 | Gen2 hits (class >= 1) and non-hits (class < 1) are disjoint and together are the protein's anchor rows |
| Viewer.Gen2Split | app.py:248-296 | the passing list is the hits sorted by hitRank, the failing list the non-hits sorted by l2fc, the two together are a permutation of the protein's anchor rows, and the selection list is the passing ligands followed by the failing ones |
| Viewer.Profile | app.py:308 | the Gen2 profile holds exactly the anchor rows of the picked Gen2 ligand, and nothing when none is picked |
| Viewer.Gen2Stage | app.py:236-338 | a view iff the ligand is Gen2-eligible and the protein has a row in its anchor slice (otherwise the selection list is empty and the source raises at app.py:302); then the IsGen2View conditions: distinct Gen2 ligands of the anchor slice counted, the split as Gen2Split, a Gen2 ligand picked from the selection list, the rank of the protein in the sorted reference hits of the profile, and a displayed view that is exactly the stable (ligHits, l2fc) sort of the picked ligand's profile, filtered or not as the reference result decides, drawn only from its anchor rows |
| Viewer.ProfileView | app.py:308-338 | the profile row count; Summarize of the profile's reference hits ('< 0.05', '< 0.25', 'Low') sorted by (ligHits, l2fc) ascending; fallback iff that is empty; a displayed view that is exactly the stable (ligHits, l2fc) sort of the chosen or the whole profile and holds only anchor rows of the picked ligand |
| Viewer.DrillDown | app.py:112-338 | no interactions iff the protein has no screen row; otherwise the protein view meets IsProteinView; the run raises at the ligand pick iff that view is empty; otherwise the ligand is picked from the view's fragId column at the chosen position (the view's order, ties included, is fixed by IsProteinView) and its ligand view meets IsLigandView (profile from the whole screen table); the run raises at the Gen2 pick iff the ligand is eligible and the protein has no row in its anchor slice; a shown run has a Gen2 view iff the ligand is eligible, and it meets IsGen2View |
| Viewer.LigandAndGen2 | app.py:183-302 | for a picked ligand with screen rows: a ligand view meeting IsLigandView, then `Gen2Raises` iff the ligand is eligible and the protein has no row in its anchor slice, otherwise a shown run whose Gen2 view is present iff the ligand is eligible and meets IsGen2View |

## Left out

- Page setup, CSS, widget rendering, help texts and messages are not modelled (app.py:16-38, app.py:96-106, app.py:144-156, app.py:319-329). Widget choices are parameters.
- `draw_grid` is not part of this model. It is a rendering helper from `src/agstyler`.
- Image paths and `st.image` are not modelled. They are asset I/O.
- Table loading with `pd.read_csv` is not modelled; it is file I/O. The tables are parameters.
- The unused imports `xlsxwriter` and `BytesIO` are not modelled.
- Percentage rounding with `np.round` (app.py:141, app.py:209) is display formatting. Only the flag conditions are modelled.
- pandas NaN comparisons and IEEE floating point are not modelled. Columns are exact reals and integers.
- `top5Frags` (app.py:122) is never used. It is not modelled.
- The `(mdfClass, l2fc)` re-sort at app.py:292-294 is never used. It is not modelled.
- Sorting.SortBy: the single-key sorts at app.py:251 and app.py:283 use pandas' default quicksort, which does not fix the order of tied rows; the model sorts them stably, so the tie order of the Gen2 passing and failing lists is a model choice. The two-key sorts are stable in pandas, as in the model.
- Ranking.Frame.constructor: a frame's index labels before getVarText relabels them are not tracked. A new frame gets positional labels, and only the 1..n relabelling is observable in the model.
- Viewer.DrillDown: where the source raises (app.py:204, app.py:302), the model reports `Raises` or `Gen2Raises` and does not compute the rest of the run.
- Tables.Row: primary-screen rows and competition rows share one type. `gen1Lig` and `hitRank` are only read for competition rows.

## Findings

| source | as written | input that shows it | evidently intended | confidence | as-written member | corrected member |
|---|---|---|---|---|---|---|
| app.py:228-229 | the "top 5" callout fires when the 1-based rank (index relabelled 1..n at app.py:76) is below 5, so only for ranks 1-4 | the selected protein is the fifth row of the ligand's sorted reference view: rank 5, no callout, though the message claims top 5 | fire for ranks 1-5 | medium; not executed | Ranking.TopFiveAsWrittenMeansFirstFour, Ranking.TopFiveAsWrittenMissesFifth | Ranking.InTopFiveMeansFirstFive (Viewer.LigandStage carries both the as-written and the corrected flag) |
