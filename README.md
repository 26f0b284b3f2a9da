# Disaster response pipeline — a verified model of its data core

This project models the data path of the disaster response pipeline in Dafny and proves properties of that model.

**ETL step** (`src/data_preparation/etl_pipeline.py`):
- The messages file and the categories file are merged on `id`.
- Each row's `;`-separated `name-value` categories string is expanded into one integer column per category, named after the first row's tokens.
- Exact duplicate rows are dropped.

**Dashboard helpers** (`disaster_response_pipeline.py`):
- `get_category_names`, `get_genre_distribution`, `get_top_n_categories` and `get_predicted_category_names` query the cleaned table.
- `load_pipeline` trains when the model file is missing, running the ETL step first when the default database file `DATABASE_FILENAME` is missing, then loads the model.

Modules:

- `Wrappers` (`wrappers.dfy`): `Option` and `Result`, which carry the exceptions the Python code raises.
- `EtlPipeline` (`etl_pipeline.dfy`): `load_data` as the function `LoadData`. `clean_data` has a specification function `Clean` and a method `CleanData` proved equal to it; its loop mirrors the column-by-column loop of the source. `process` becomes `Process`.
- `EtlProperties` (`etl_properties.dfy`) proves:
  - the split/join round trips;
  - exactly when cleaning succeeds;
  - where the column names and values come from;
  - what duplicate removal keeps.
- `EtlExamples` (`etl_examples.dfy`) works through small concrete merges and cleanings.
- `DisasterResponsePipeline` (`disaster_response_pipeline.dfy`) holds:
  - the four query helpers, as functions over the cleaned table;
  - the default file names of `src/config.py`;
  - `load_pipeline`, as a `Workspace` class whose fields are the files present and the log of steps taken. `RunEtl`, `Train`, `LoadModel` and `ReadCategoryNames` each state their own effect on the files and the log; `RunPlan`, `LoadPipeline` and `LoadPipelineCheckingDatabase` are specified by the pure `Plan` and `Replay` functions. The ETL step runs `EtlPipeline.Process` on the rows the CSV files hold; when cleaning raises, the run stops with that exception.

Pandas behaviour that the model writes out explicitly:

**Splitting and column names**
- `str.split(expand=True)` pads short rows with a missing cell.
- The name `x[:-2]` is empty for tokens shorter than two characters.
- When the first row is narrower than the widest row, `x[:-2]` meets a padding cell and raises.

**Converting values**
- `.str[-1]` of an empty token is missing.
- `astype(int)` raises on a missing cell or a non-digit.
- A repeated column label makes `categories[column]` a frame without `.str`, which raises.
- Columns are converted left to right, so the first failing column decides the error.

**Merging and duplicates**
- The inner merge keeps the left file's order row by row and pairs every row of a repeated id.
- `drop_duplicates` keeps the first occurrence.

**Query helpers**
- `groupby('genre')` drops rows without a genre, and `count()['message']` counts only rows with a message.
- The Python slice `[1:n]` is modelled with its clamping and negative bounds.

## Model

| member | source | states |
|---|---|---|
| EtlPipeline.MatchesOf | src/data_preparation/etl_pipeline.py:29 | the merged rows of one message are exactly its pairings with the categories rows of the same id (their order: `MatchesOfAppend`) |
| EtlPipeline.LoadData | src/data_preparation/etl_pipeline.py:14-31 | every merged row pairs a message row and a categories row with equal ids, and every such pair appears in the merge (their order: `LoadDataAppend`) |
| EtlProperties.JoinKeepsCommonIds | src/data_preparation/etl_pipeline.py:29 | an id occurs in the merge iff it occurs in both files (inner join) |
| EtlProperties.MatchesOfAppend | src/data_preparation/etl_pipeline.py:29 | a categories row appended to its file adds one pairing at the end of a message's merged rows when its id matches, and none otherwise: the pairs follow the categories file, once each |
| EtlProperties.LoadDataAppend | src/data_preparation/etl_pipeline.py:29 | a message row appended to its file adds its merged rows after all earlier ones: the merge follows the messages file |
| EtlProperties.MatchesOfNone | src/data_preparation/etl_pipeline.py:29 | a message without a categories row of its id has no merged rows |
| EtlProperties.MatchesOfFirst | src/data_preparation/etl_pipeline.py:29 | a message's first merged row pairs it with the first categories row of its id |
| EtlProperties.LoadDataFirstRow | src/data_preparation/etl_pipeline.py:29 | the first merged row pairs the first message that has a match with its first matching categories row |
| EtlProperties.ProcessNamesFromFirstMatch | src/data_preparation/etl_pipeline.py:114-117 | the stored column names are the token names of the first categories row matching the first matched message |
| EtlPipeline.Split | src/data_preparation/etl_pipeline.py:44 | splitting on `;` yields at least one token, and no token contains `;` |
| EtlProperties.JoinSplit | src/data_preparation/etl_pipeline.py:44 | joining the tokens with `;` gives back the original string |
| EtlProperties.SplitPrefix | src/data_preparation/etl_pipeline.py:44 | a `;`-free prefix extends the first token and leaves the rest unchanged |
| EtlProperties.SplitJoin | src/data_preparation/etl_pipeline.py:44 | splitting the `;`-join of `;`-free tokens gives back those tokens |
| EtlProperties.SplitAfterSeparator | src/data_preparation/etl_pipeline.py:44 | a leading `;` splits off an empty first piece and leaves the split of the rest |
| EtlPipeline.Width | src/data_preparation/etl_pipeline.py:44 | the width of the expanded frame is the largest token count of any row, and 0 for no rows |
| EtlPipeline.CategoryName | src/data_preparation/etl_pipeline.py:47 | a column name is its token minus the last two characters, and empty for tokens shorter than two |
| EtlPipeline.TokenValue | src/data_preparation/etl_pipeline.py:52-53 | a token converts iff its last character is a digit, and then to that digit's value, 0..9 |
| EtlPipeline.ConvertColumn | src/data_preparation/etl_pipeline.py:52-53 | taking the last character and then `astype(int)` succeeds on a column iff every cell has a digit, and then yields those digits |
| EtlPipeline.FirstFailingColumn | src/data_preparation/etl_pipeline.py:51-53 | finds the first column, left to right, that is duplicated or does not convert; none iff all columns convert |
| EtlPipeline.DropDuplicates | src/data_preparation/etl_pipeline.py:59 | keeps only rows of the input, keeps every distinct row, and no row twice |
| EtlPipeline.FirstIndex | src/data_preparation/etl_pipeline.py:59 | the position of a row's first occurrence |
| EtlPipeline.FirstIndexOfPrefix | src/data_preparation/etl_pipeline.py:59 | a row's first occurrence is unchanged by appending rows |
| EtlPipeline.DropDuplicatesKeepsFirstOccurrenceOrder | src/data_preparation/etl_pipeline.py:59 | kept rows appear in the order of their first occurrences |
| EtlPipeline.Clean | src/data_preparation/etl_pipeline.py:34-61 | cleaning raises at `iloc[0]` exactly on an empty frame; a cleaned table has no more rows than the merge, one category column per token of the first row, and one value per column in every row |
| EtlPipeline.CleanData | src/data_preparation/etl_pipeline.py:34-61 | the column-by-column cleaning loop returns exactly the specified cleaned table or error |
| EtlPipeline.Process | src/data_preparation/etl_pipeline.py:98-122 | processing yields the cleaning of the merge of the two files |
| EtlProperties.CleanOkPassedChecks | src/data_preparation/etl_pipeline.py:44-53 | a successful cleaning had rows, a first row as wide as any row, and no failing column, and its names come from the first row |
| EtlProperties.CleanOkIsCleanable | src/data_preparation/etl_pipeline.py:44-53 | a successful cleaning implies the input is cleanable |
| EtlProperties.CleanableCleansOk | src/data_preparation/etl_pipeline.py:44-53 | a cleanable input always cleans successfully |
| EtlProperties.CleanSucceedsIff | src/data_preparation/etl_pipeline.py:44-53 | cleaning succeeds iff all four hold: there are rows; every row has as many tokens as the first; the first row's names are distinct; every token ends in a digit |
| EtlProperties.CleanOfEmptyFrame | src/data_preparation/etl_pipeline.py:46 | an empty merged frame raises at `iloc[0]` |
| EtlProperties.CleanNamesFromFirstRow | src/data_preparation/etl_pipeline.py:46-49 | the category columns are named, in token order, after the first row's tokens, and the names are distinct |
| EtlProperties.CleanExpandsRowByRow | src/data_preparation/etl_pipeline.py:51-59 | each merged row expands to a row keeping its text columns, with one value per token taken from the token's last digit; the table is these rows with duplicates dropped |
| EtlProperties.ExpansionSurvivesDropDuplicates | src/data_preparation/etl_pipeline.py:59 | dropping duplicates keeps an expansion of every source row and introduces none |
| EtlProperties.CleanRowsStemFromMergedRows | src/data_preparation/etl_pipeline.py:55-59 | every cleaned row expands some merged row: same text columns, one digit value per token |
| EtlProperties.CleanKeepsEveryRowsValues | src/data_preparation/etl_pipeline.py:55-59 | every merged row is represented in the cleaned table by a row expanding it |
| EtlProperties.CleanDropsDuplicates | src/data_preparation/etl_pipeline.py:59 | cleaned rows are distinct, no more than the merged rows, include every expansion, and follow first-occurrence order |
| EtlProperties.CleanRejectsNonDigit | src/data_preparation/etl_pipeline.py:52-53 | a token whose last character is not a digit makes cleaning fail |
| EtlProperties.CleanRejectsRaggedRow | src/data_preparation/etl_pipeline.py:44-53 | a row whose token count differs from the first row's makes cleaning fail |
| EtlExamples.SplitWithoutSeparator | src/data_preparation/etl_pipeline.py:44 | a string without `;` splits into itself |
| EtlExamples.SplitTwo | src/data_preparation/etl_pipeline.py:44 | `a;b` splits into `a` and `b` when neither holds `;` |
| EtlExamples.CleanOneRow | src/data_preparation/etl_pipeline.py:44-59 | a cleanable single row becomes one row holding its tokens' digits, under its tokens' names |
| EtlExamples.OneTokenCleanable | src/data_preparation/etl_pipeline.py:44-53 | a row with one token ending in a digit is cleanable |
| EtlExamples.CleanTwoRows | src/data_preparation/etl_pipeline.py:44-59 | two cleanable rows with different ids become two rows, in order, under the first row's names |
| EtlExamples.ValueTwoPassesThrough | src/data_preparation/etl_pipeline.py:52-53 | `related-2` cleans to the value 2, not to a 0/1 flag |
| EtlExamples.NonDigitValueRaises | src/data_preparation/etl_pipeline.py:53 | `related-x` fails in column 0 |
| EtlExamples.TwoRowsCleanable | src/data_preparation/etl_pipeline.py:44-53 | two rows with the same token count and digit values are cleanable |
| EtlExamples.TokensGoByPosition | src/data_preparation/etl_pipeline.py:46-53 | values go by token position, not by name: `b-1;a-0` under names `a`,`b` gives 1 to `a` |
| EtlExamples.WaterFoodCleanable | src/data_preparation/etl_pipeline.py:44-53 | the row `water-1;food-0` is cleanable |
| EtlExamples.LoadOneMatchingPair | src/data_preparation/etl_pipeline.py:29 | one message and one categories row with the same id merge into one row |
| EtlExamples.CleanWaterFood | src/data_preparation/etl_pipeline.py:44-59 | cleaning that row gives columns `water`,`food` with values 1, 0 |
| EtlExamples.WaterFoodExample | src/data_preparation/etl_pipeline.py:98-122 | processing one message with `water-1;food-0` gives one row with `water` 1 and `food` 0 |
| DisasterResponsePipeline.GetCategoryNames | disaster_response_pipeline.py:14-25 | the category names are the table's columns from position 4 on, which are exactly the category columns |
| DisasterResponsePipeline.EtlTableFeedsDashboard | disaster_response_pipeline.py:24-25 | the table the ETL step stores has one value per category in every row; its category names are the first merged row's token names, distinct |
| DisasterResponsePipeline.MessagesOfGenreExtend | disaster_response_pipeline.py:39 | appending a row adds its index to its genre's counted rows iff it has that genre and a message |
| DisasterResponsePipeline.GroupCounts | disaster_response_pipeline.py:39 | the grouped keys are genres some row has, and no count exceeds the number of rows |
| DisasterResponsePipeline.GroupCountsStep | disaster_response_pipeline.py:39 | one more row keeps the grouped keys and counts exact for each genre |
| DisasterResponsePipeline.GroupCountsCounts | disaster_response_pipeline.py:39 | the grouped counts have a key for exactly the genres some row has, and each counts the rows of that genre with a message |
| DisasterResponsePipeline.GetGenreDistribution | disaster_response_pipeline.py:28-39 | the distribution maps every genre present to the number of its rows with a message, and nothing else |
| DisasterResponsePipeline.Insert | disaster_response_pipeline.py:56 | inserting into a non-increasing ranking keeps it non-increasing and adds exactly that entry |
| DisasterResponsePipeline.InsertBehindHead | disaster_response_pipeline.py:56 | an entry smaller than the head is inserted behind it, and the ranking stays ordered |
| DisasterResponsePipeline.SortDescending | disaster_response_pipeline.py:56 | the descending sort is a non-increasing permutation of its input |
| DisasterResponsePipeline.SliceOfRanking | disaster_response_pipeline.py:56 | a Python slice of a ranking is ordered and takes its entries from the ranking's positions in range |
| DisasterResponsePipeline.RankingIsCategorySums | disaster_response_pipeline.py:56 | the ranking holds every category with its column sum, only such entries, in non-increasing order |
| DisasterResponsePipeline.RankingSlice | disaster_response_pipeline.py:56 | any slice of the ranking is ordered and a sub-multiset of the column sums |
| DisasterResponsePipeline.GetTopNCategories | disaster_response_pipeline.py:42-56 | the returned pairs are categories with their column sums, in non-increasing order of sum |
| DisasterResponsePipeline.GetTopNCategoriesAsDocumented | disaster_response_pipeline.py:44-51 | the documented slice `[0:n]` returns categories with their column sums, in non-increasing order of sum |
| DisasterResponsePipeline.TopNCategoriesRanked | disaster_response_pipeline.py:42-56 | the top categories are ordered by sum and are category/sum pairs; n = 0 gives k-1 of the k categories, n > 0 gives min(n,k)-1, a negative n counts from the end |
| DisasterResponsePipeline.SameNameSameEntry | disaster_response_pipeline.py:56 | with distinct category names, two category/sum entries with the same name are equal |
| DisasterResponsePipeline.CategorySumsDistinct | disaster_response_pipeline.py:56 | with distinct category names, the column-sum entries are distinct |
| DisasterResponsePipeline.RankingNamesDistinct | disaster_response_pipeline.py:56 | with distinct category names, no two ranking entries share a name |
| DisasterResponsePipeline.HeadOutsideTail | disaster_response_pipeline.py:56 | the slice `[1:n]` of a ranking with distinct names never holds the first entry's name |
| DisasterResponsePipeline.RankingHeadIsLargest | disaster_response_pipeline.py:56 | the first entry of the ranking is a category whose sum is the largest |
| DisasterResponsePipeline.OutsideSliceIsSmaller | disaster_response_pipeline.py:56 | in a non-increasing ranking, an entry past the slice start but outside the slice is no larger than any entry inside it |
| DisasterResponsePipeline.TailSliceKeepsLargest | disaster_response_pipeline.py:56 | in a non-increasing ranking, an entry outside the head and outside `[1:n]` is no larger than any entry of `[1:n]` |
| DisasterResponsePipeline.TopNCategoriesAreTheLargest | disaster_response_pipeline.py:44-56 | every category left out, other than the ranking's head, has a sum no larger than any category returned |
| DisasterResponsePipeline.TopNCategoriesDropsTopRanked | disaster_response_pipeline.py:54-56 | for every n, some category with the largest sum is never returned |
| DisasterResponsePipeline.TopNCategoriesAsDocumentedRanked | disaster_response_pipeline.py:48-56 | the slice `[0:n]` is ordered; n = 0 returns every category with its sum; n > 0 returns min(n,k) |
| DisasterResponsePipeline.TopNCategoriesAsDocumentedAreTheLargest | disaster_response_pipeline.py:44-51 | the slice `[0:n]` returns the largest categories: every category left out has a sum no larger than any category returned |
| DisasterResponsePipeline.TopNCategoriesAsDocumentedLeadsWithLargest | disaster_response_pipeline.py:48-56 | the slice `[0:n]` starts with a category of the largest sum |
| DisasterResponsePipeline.Selected | disaster_response_pipeline.py:70 | the positions whose prediction is 1, increasing, all of them |
| DisasterResponsePipeline.NamesFrom | disaster_response_pipeline.py:70 | the comprehension succeeds iff no 1 sits past the last name; otherwise it fails at the first such 1 |
| DisasterResponsePipeline.NamesFromPicksSelected | disaster_response_pipeline.py:70 | on success, the result is the names at the positions holding 1, in order |
| DisasterResponsePipeline.GetPredictedCategoryNames | disaster_response_pipeline.py:59-70 | returns the names at the positions predicted 1, in order; raises exactly when a 1 sits past the last name |
| DisasterResponsePipeline.PredictedCategoryNamesExamples | disaster_response_pipeline.py:70 | `[1,0,1]` picks the first and third names; other values past the names are ignored; a 1 past them raises |
| DisasterResponsePipeline.Plan | disaster_response_pipeline.py:88-101 | a run either ends by loading the model and reading the category names, or stops at an ETL step that raised; no earlier step raised |
| DisasterResponsePipeline.Workspace.RunEtl | src/data_preparation/etl_pipeline.py:98-122 | `process` returns the cleaning of the merge; it writes the database file only when cleaning succeeds, and an exception leaves the files unchanged |
| DisasterResponsePipeline.Workspace.Train | disaster_response_pipeline.py:94-95 | training writes the model file and is logged |
| DisasterResponsePipeline.Workspace.LoadModel | disaster_response_pipeline.py:100 | loading returns the model of the given file and changes no file |
| DisasterResponsePipeline.Workspace.ReadCategoryNames | disaster_response_pipeline.py:101 | the final read of the category names changes no file |
| DisasterResponsePipeline.Workspace.RunPlan | disaster_response_pipeline.py:88-101 | the steps taken and the files afterwards are those of the plan; the run returns the model, whose file then exists, or raises exactly when the ETL step ran and cleaning failed, with that exception |
| DisasterResponsePipeline.Workspace.LoadPipeline | disaster_response_pipeline.py:73-102 | `load_pipeline` as written: ETL is guarded by the default database file name; it returns the model, whose file exists afterwards, or the ETL step's exception |
| DisasterResponsePipeline.Workspace.LoadPipelineCheckingDatabase | disaster_response_pipeline.py:90 | with the guard on its own database parameter, training always finds its database |
| DisasterResponsePipeline.GuardedPlanTrainsOnStoredData | disaster_response_pipeline.py:90-95 | a plan whose ETL guard is the database it trains on never trains on a missing database |
| DisasterResponsePipeline.LoadPipelineSteps | disaster_response_pipeline.py:88-101 | with the model file present the run only loads; training runs iff the model file is missing and the guard file is present or the ETL step succeeds; the ETL step runs, or raises, iff the model and guard files are both missing |
| DisasterResponsePipeline.LoadPipelineFiles | disaster_response_pipeline.py:88-101 | afterwards the files present are the old ones plus the model file when training ran, plus the database when the ETL step saved it; a run that raised changes no file |
| DisasterResponsePipeline.ReplayLoads | disaster_response_pipeline.py:100-101 | loading the model and reading the category names change no file |
| DisasterResponsePipeline.LoadPipelineRerunOnlyLoads | disaster_response_pipeline.py:75-76 | after a run that did not raise, a second run neither runs ETL nor trains, and changes no file; a run that raised changed no file |
| DisasterResponsePipeline.AsWrittenTrainsWithoutItsDatabase | disaster_response_pipeline.py:90 | with `data/db.sqlite3` present and another database file asked for, training reads a database that was never built |
| DisasterResponsePipeline.AsWrittenTrainsOnStoredDataByDefault | disaster_response_pipeline.py:90-95 | with the default database file name, the guard as written always lets training find its database |

## Left out

- File and database I/O is not part of this model: `read_csv`, `save_data` (`to_sql` into SQLite) and `get_df_from_database`. The inputs are the rows of the two CSV files. The dashboard helpers take the cleaned table directly.
- File presence is a set of file names. `os.path.isfile` is membership in that set.
- Training, pickling, model loading and prediction live in `src/classifier/train.py`, which is not part of this model. A model is identified by its file name; `load_pipeline` returns that name.
- Workspace.Train, Workspace.LoadModel, Workspace.ReadCategoryNames, Workspace.LoadPipeline: training, model loading and the `get_category_names(database_filename)` read at disaster_response_pipeline.py:101 always succeed in the model. An exception they raise (training on a missing database, an unreadable pickle, reading names from a database that is absent while the model file exists) is not modelled; such a run returns `Ok(model)`. Only the ETL step's exception ends a run; training on a missing database is stated through `TrainsOnStoredData` instead.
- Argument parsing, the `__main__` blocks, `print` output, and the dash applications are not modelled. They do nothing to the data.
- Cells are modelled as text; column dtypes are not. The model converts only the ASCII digits 0–9 in `astype(int)`; Python's `int` also accepts other Unicode decimal digits, which the model rejects. The `id` column is an integer, and a missing categories string is not modelled.
- The merge assumes the two files share only the `id` column, so no suffixed column names arise.
- LoadData: when the messages file repeats an id, the merged rows follow the messages file row by row, as pandas 2.2 and later order an inner merge. Earlier pandas versions grouped the rows of a repeated left id together; that order is not modelled.
- SortDescending: pandas does not guarantee an order among equal sums (the default sort is not stable), so no property depends on tie order. Tie order is not broken by column order.
- GetTopNCategories: `to_dict` is modelled as the ordered sequence of name/sum pairs it is built from.
- GetPredictedCategoryNames takes the category names as a parameter. The source reads them from `DATABASE_FILENAME`. Prediction values are integers compared with 1.
- GetGenreDistribution: the counts sum to the number of rows only when every row has a genre and a message. The model states the per-genre counts exactly and does not claim the total.
- The cleaned values are the digits 0–9 the source accepts, not only 0 and 1 (see `EtlExamples.ValueTwoPassesThrough`).
- GetPredictedCategoryNames: it fails only when a 1 sits at a position past the last name. A longer prediction list whose extra entries are not 1 succeeds, as the comprehension's filter runs before the lookup.

## Findings

| source | as written | input that shows it | evidently intended | confidence | as-written member | corrected member |
|---|---|---|---|---|---|---|
| disaster_response_pipeline.py:56 | the ranking is sliced `[1:n]`, so the category with the largest sum is never returned, and n = 0 returns all but one category | any table with at least one category, for example n = 0 | the slice `[0:n]`: the docstring at line 48 says n = 0 considers all categories | not executed; medium, since dropping the first-ranked category may be deliberate | DisasterResponsePipeline.TopNCategoriesDropsTopRanked | DisasterResponsePipeline.GetTopNCategoriesAsDocumented |
| disaster_response_pipeline.py:90 | the ETL step is skipped when the constant `DATABASE_FILENAME` exists, whatever `database_filename` is | model file missing, `data/db.sqlite3` present, `database_filename = "data/other.sqlite3"`: training reads a database that was never built | guard on the `database_filename` parameter | not executed; high | DisasterResponsePipeline.AsWrittenTrainsWithoutItsDatabase | DisasterResponsePipeline.Workspace.LoadPipelineCheckingDatabase |
