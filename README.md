# VeriBond semantic agent, modelled in Dafny

VeriBond's semantic agent is a batch pipeline over prediction markets. It has seven stages:

1. **reset** clears derived data.
2. **ingest** reads a Polymarket CSV export into `Market` records and upserts them into SQLite.
3. **embed** turns each market's text into a vector and stores it in ChromaDB.
4. **cluster** runs K-means over the vectors and writes `Cluster` rows and market-to-cluster assignments.
5. **label** asks a chat model for one taxonomy category per cluster.
6. **relations** asks the chat model, cluster by cluster, for pairs of markets whose outcomes are related (same or opposite).
7. **evaluate** scores those predicted relations against the resolved YES/NO outcomes. It reports totals, a per-cluster breakdown and a per-confidence-bucket breakdown.

Around the pipeline sit:
- the settings;
- the logging set-up;
- a bounded in-memory log buffer;
- the admin server's validators: CSV paths, upload file names with a size cap, the log tail clamp, and the dataset listing.

This project models the deterministic part of all of this and proves what it does. The external services are inputs to the model:
- the chat model;
- the sentence encoder;
- K-means;
- ChromaDB;
- pandas;
- `json.loads`;
- the datetime parser.

A service is either a function parameter (an oracle) or a value the caller supplies. The clock and the file system are also inputs: file existence is a boolean, and a directory listing is a sequence of names.

Modules follow the source files:

| module | file | form |
|---|---|---|
| `Config` | `config.dfy` | settings defaults, bounds, derived paths (functions) |
| `Models` | `models.dfy` | the pydantic records as datatypes with validity predicates |
| `LoggingUtils` | `logging_utils.dfy` | `RootLogger` class; `configure_logging` as a method on it |
| `LogBuffer` | `log_buffer.dfy` | `LineBuffer` class for the bounded deque; handler install and startup |
| `AdminApp` | `admin_app.dfy` | path and name validators (functions); the upload loop and listing (methods) |
| `Store` | `store.dfy` | `Database` class whose fields are the three SQLite tables; `StoreCall` values for the writes to store functions whose code is not part of this model, which the stages return |
| `Ingest` | `ingest.dfy` | column normalisation, token parsing, the row loop, load-and-save |
| `Embed` | `embed.dfy` | market text, the upsert chunking loop |
| `Clustering` | `cluster.dfy` | the cluster count, the cluster-building loop |
| `Label` | `label.dfy` | reply normalisation, cluster selection, the labelling loop |
| `Relations` | `relations.dfy` | prompt, reply post-processing, eligibility, task building, result collection in any completion order |
| `Evaluate` | `evaluate.dfy` | bucket labels, the evaluation loop over an `EvalResult` object |
| `RunFull` | `run_full.dfy` | the seven guarded stage calls |

`Wrappers`, `Seqs`, `Strings`, `Sorting` and `Json` hold the helpers:
- Option and Result;
- Python slicing and filtering;
- `strip`, `lower`, `join`, decimal text and lexicographic order;
- insertion sort;
- parsed JSON values.

Every Python exception a core function can raise is an `Err` value of the `Wrappers.Error` datatype: `ValueError`, `FileNotFound`, `ValidationError`, `AttributeError`, `IndexError`, `DatabaseError`, `ExternalError` (an exception from a foreign library), or `HttpError(status)`.

## Model

| member | source | states |
|---|---|---|
| Config.JoinName | semantic_agent/config.py:71 | `p / name` for a name that is one component appends it and keeps absoluteness; the name read back is `name` |
| Config.Components | admin/server/app.py:58 | the components pathlib reads from a string are non-empty, never ".", free of "/", and a plain name is its own single component |
| Config.JoinPath | admin/server/app.py:58 | `p / name` for any string: an absolute name replaces `p`; otherwise `p`'s components are kept as a prefix and followed by exactly the name's components; for a plain name it agrees with `JoinName` |
| Config.ComponentsSlash | admin/server/app.py:58 | a name is read piece by piece: the piece before the first "/" is a component unless it is "" or ".", followed by the components of the rest |
| Config.ComponentsOfTwo | admin/server/app.py:58 | a name "a/b" of two plain pieces (such as "sub/x.csv") is the two components `a` and `b` |
| Config.NoDotDotPiece | admin/server/app.py:55-58 | a string that does not contain ".." has no piece equal to ".." |
| Config.DefaultSettings | semantic_agent/config.py:20-64 | the defaults satisfy every field bound, the database URL has the `sqlite:///` scheme, and the paths, ratio 0.1 and minimum duration 7.0 are the declared defaults |
| Config.UnderDataDir | semantic_agent/config.py:66-78 | an absolute directory is kept; a relative one becomes its last component under `data_dir` |
| Config.RelativeKeepsOnlyLastComponent | semantic_agent/config.py:69-71 | two relative raw directories with the same last component give the same `raw_data_path` |
| Config.DefaultPaths | semantic_agent/config.py:66-78 | with the defaults, `raw_data_path` is `data/raw` and `processed_data_path` is `data/processed` |
| Models.ParseOutcome | semantic_agent/models/market.py:9 | only "YES" and "NO" name an outcome, and parsing inverts the outcome's text |
| Models.OutcomeTextRoundTrip | semantic_agent/models/market.py:9 | an outcome's text parses back to that outcome |
| Models.NewMarket | semantic_agent/models/market.py:12-27 | a market built from an id and a non-empty question is valid and has the declared defaults: no tags, binary, source "kaggle", all optional fields None |
| Models.NewCluster | semantic_agent/models/market.py:30-39 | a new cluster has no markets, category "other" and no rationale |
| Models.NewRelation | semantic_agent/models/market.py:42-54 | a relation with a confidence in [0, 1] is valid and its rationale defaults to "" |
| Models.EmptyRelationList | semantic_agent/models/market.py:57-60 | the default relation list is empty and valid |
| Models.ValidateRelations | semantic_agent/models/market.py:53-60 | validation succeeds exactly when every confidence lies in [0, 1], and then keeps the relations as given |
| LoggingUtils.RootLogger.constructor | semantic_agent/logging_utils.py:45 | a fresh root logger has no handlers and level WARNING |
| LoggingUtils.EnvBool | semantic_agent/logging_utils.py:31-35 | an unset variable gives the default; a set one is true exactly when its stripped, lower-cased value is one of 1, true, yes, y, on |
| LoggingUtils.EnvBoolIgnoresDefaultWhenSet | semantic_agent/logging_utils.py:35 | once the variable is set, the default plays no part |
| LoggingUtils.ConfigureLogging | semantic_agent/logging_utils.py:38-64 | a logger that already has handlers is untouched; otherwise exactly one stream handler is added (JSON formatter iff `json_logs`, else the env flag), and the upper-cased level is set, or ValueError for an unknown level |
| LogBuffer.Last | admin/server/log_buffer.py:47-49 | the result is a suffix of the buffer of length `min(n, len)` |
| LogBuffer.LineBuffer.constructor | admin/server/log_buffer.py:12 | the buffer starts empty |
| LogBuffer.LineBuffer.Append | admin/server/log_buffer.py:10-23 | an append keeps at most 5000 lines; below capacity it adds the line at the end, at capacity it also drops the oldest line |
| LogBuffer.LineBuffer.Emit | admin/server/log_buffer.py:19-25 | a record that formats is appended as one line; a record whose formatting raises leaves the buffer unchanged |
| LogBuffer.LineBuffer.GetLogs | admin/server/log_buffer.py:44-49 | a positive tail gives the newest `min(tail, len)` lines in order; tail 0 gives the whole buffer; a negative tail drops the oldest `-tail` lines |
| LogBuffer.LineBuffer.ClearLogs | admin/server/log_buffer.py:52-55 | the buffer is empty afterwards |
| LogBuffer.AppendThenNewest | admin/server/log_buffer.py:23 | after an append the newest line is the one appended, and the bound holds |
| LogBuffer.FullBufferKeepsNewest | admin/server/log_buffer.py:12 | on a full buffer every append evicts exactly the oldest line: after k appends the buffer is the old lines followed by the messages, with the first k dropped |
| LogBuffer.BufferHandlers | admin/server/log_buffer.py:31-33 | the count of buffer handlers is zero exactly when none is installed |
| LogBuffer.InstallBufferHandler | admin/server/log_buffer.py:28-41 | installing is idempotent: a buffer handler is present afterwards, nothing changes when one was there, and a second one is never added |
| LogBuffer.Startup | admin/server/app.py:71-77 | on a fresh logger, startup succeeds exactly when the requested level is known, and then installs one stream handler followed by one buffer handler; a bad level stops before the buffer handler |
| AdminApp.CsvName | admin/server/app.py:52-54 | a None or blank argument becomes the default file name; otherwise the name is the stripped argument, never empty |
| AdminApp.DefaultStripped | admin/server/app.py:52 | the default name is already stripped |
| AdminApp.ResolveCsvPath | admin/server/app.py:50-58 | the path is rejected with 400 exactly when the name contains ".." or starts with "/"; otherwise it is `raw_dir / name` with pathlib's reading of the name |
| AdminApp.ResolvedStaysUnderRawDir | admin/server/app.py:56-58 | an accepted path is the raw directory followed by the name's components, none of which is "", "." or "..", so it cannot leave the raw directory; a plain file name adds exactly one component |
| AdminApp.Absolute | admin/server/app.py:65 | a relative path is put under the absolute working directory; an absolute one is kept |
| AdminApp.RawDataDirAbsolute | admin/server/app.py:61-66 | the upload directory is absolute and ends in the last component of `raw_data_dir` |
| AdminApp.RawDirAgreesWithSettings | admin/server/app.py:61-66 | for a relative `raw_data_dir`, the admin directory is the settings' `raw_data_path` made absolute |
| AdminApp.AllowedNameHasNoSlash | admin/server/app.py:101 | an accepted upload name has no "/" and ends in ".csv", or in ".csv" and a newline, which the regex's `$` lets through |
| AdminApp.AllowedNameExamples | admin/server/app.py:101 | "my_data.csv" and "my_data.csv\n" are accepted; ".csv", "a/b.csv", "data.CSV", "" and None are not |
| AdminApp.EndOfFile | admin/server/app.py:115 | the read loop stops at the first empty chunk: every chunk before it is non-empty |
| AdminApp.UploadDataset | admin/server/app.py:105-121 | a bad name gives 400 with nothing written; otherwise, if the uploaded bytes exceed 500 MiB the reply is 413 and no file is left; else the file holds exactly the uploaded bytes and the reply gives name, path and size; at most 500 MiB is ever written, always a prefix of the upload |
| AdminApp.ClampTail | admin/server/app.py:86-87 | a tail in [1, 5000] is kept; anything else becomes 500 |
| AdminApp.ApiGetLogs | admin/server/app.py:82-88 | the reply is the newest lines for the clamped tail, never more than 5000 |
| AdminApp.ApiClearLogs | admin/server/app.py:91-96 | the buffer is empty afterwards |
| AdminApp.Suffix | admin/server/app.py:130 | a non-empty suffix starts with its only dot, ends the name, and is shorter than it |
| AdminApp.CsvEntryIff | admin/server/app.py:130 | an entry is listed exactly when its name is longer than ".csv" and ends in ".csv" in any letter case |
| AdminApp.ListDatasets | admin/server/app.py:124-131 | a missing directory gives []; otherwise the result is a sorted permutation of exactly the CSV entries |
| AdminApp.ListDatasetsOrderIndependent | admin/server/app.py:130 | the listing depends only on which entries exist, not on the directory's order |
| Store.SqlitePath | semantic_agent/store.py:15-20 | a URL is accepted exactly when it starts with `sqlite:///`, and the path is what follows the prefix; any other URL is a ValueError |
| Store.SqlitePathRoundTrip | semantic_agent/store.py:19 | prefixing a path and extracting it again gives the path back |
| Store.DefaultUrlAccepted | semantic_agent/store.py:17 | the default database URL passes the scheme check |
| Store.EncodeMarket | semantic_agent/store.py:100-112 | the bound row is keyed by the market's id |
| Store.DecodeTags | semantic_agent/store.py:138-145 | NULL, "" or text that does not parse gives []; parsed JSON must be a list of strings, otherwise the row is invalid |
| Store.NonEmpty | semantic_agent/store.py:162-167 | a nullable text column reads "" as None and keeps any other value |
| Store.DecodeMarket | semantic_agent/store.py:137-185 | a row fails validation exactly when its question is empty or its tags are not a string list; otherwise the market is valid, keeps the id, has no "" description or slug, a non-empty source, the stored binary flag, and an outcome only when the text is YES or NO |
| Store.MarketRoundTrip | semantic_agent/store.py:100-185 | writing a valid market and reading it back preserves id, question, tags, duration, outcome and binary flag; "" description or slug comes back as None, an empty source as "csv", and each timestamp whose ISO text parses back |
| Store.LenientDecoding | semantic_agent/store.py:138-170 | tags that are not JSON read as [] and an outcome such as "yes" reads as None, without failing the row |
| Store.UpsertMarketsById | semantic_agent/store.py:89-113 | after an upsert, an id in the input holds the row of its last occurrence; every other id keeps its old row or stays absent |
| Store.UpsertRow | semantic_agent/store.py:207-213 | `INSERT OR REPLACE` into `clusters` keeps ids unique; the rows are the new one plus the old rows with other ids, and a new id is appended at the end |
| Store.Assign | semantic_agent/store.py:214-221 | `INSERT OR REPLACE` into `market_clusters` points the market at the new cluster and leaves every other market's assignment as it was |
| Store.AssignAllSpec | semantic_agent/store.py:214-221 | assigning a list of markets points exactly those markets at the cluster and keeps each market in at most one cluster |
| Store.Owner | semantic_agent/store.py:214-221 | a market has no owner exactly when no input cluster lists it |
| Store.WrittenAssignmentsOwner | semantic_agent/store.py:204-221 | after `write_clusters`, each market is in at most one cluster, namely the last input cluster listing it |
| Store.WrittenRowsHas | semantic_agent/store.py:204-213 | after `write_clusters`, a cluster id has a row exactly when some input cluster has that id |
| Store.WrittenRowsSpec | semantic_agent/store.py:204-213 | the written cluster rows have unique ids, one per distinct input id |
| Store.WrittenRowsDistinct | semantic_agent/store.py:206-213 | with distinct input ids, the rows are the input clusters in order |
| Store.Members | semantic_agent/store.py:247-250 | the ids collected for a cluster are exactly the markets assigned to it |
| Store.DecodeCluster | semantic_agent/store.py:252-265 | a decoded cluster keeps the id and its members; an empty category reads as "other" and an empty rationale as None |
| Store.ReadAfterWrite | semantic_agent/store.py:190-265 | reading back what `write_clusters` wrote gives each cluster exactly the markets whose last listing in the input was that cluster |
| Store.DecodeRows | semantic_agent/store.py:136-185 | the decoding loop succeeds exactly when every row decodes, the first failure is a ValidationError, and on success it returns one decoded market per row |
| Store.AssignMarkets | semantic_agent/store.py:214-221 | the inner insert loop computes the assignment update `AssignAllSpec` describes |
| Store.EmptyGroups | semantic_agent/store.py:246 | the grouping dict starts with one empty list per cluster row |
| Store.GroupMembers | semantic_agent/store.py:246-250 | after the grouping loop each cluster row's list holds exactly its assignments in row order; orphan assignments are dropped |
| Store.DecodeClusters | semantic_agent/store.py:251-265 | the result has one decoded cluster per row, in row order |
| Store.Database.InitSchema | semantic_agent/store.py:23-72 | a bad URL raises ValueError and changes nothing; otherwise the file exists and the three tables are added to those present, with every row kept, so a second call changes nothing |
| Store.Database.WriteMarkets | semantic_agent/store.py:75-117 | an empty list changes nothing, even for a bad URL; otherwise the schema is ensured and markets are upserted by id, leaving the cluster tables alone |
| Store.Database.ReadMarkets | semantic_agent/store.py:120-187 | a missing file gives []; a missing table raises; otherwise the call succeeds exactly when every row decodes, and then returns every row decoded, in some order |
| Store.Database.WriteClusters | semantic_agent/store.py:190-225 | an empty list changes nothing; otherwise both cluster tables are replaced by what the input alone determines, and the markets table is kept |
| Store.Database.ReadClusters | semantic_agent/store.py:228-267 | a missing file gives []; otherwise there is one decoded cluster per row, in row order, with its assigned markets and pairwise distinct ids |
| Ingest.Underscored | semantic_agent/pipeline/ingest.py:19 | the substitution never shortens a name and leaves a name without capitals unchanged |
| Ingest.UnderscoredOnlyInserts | semantic_agent/pipeline/ingest.py:19 | the substitution only inserts underscores |
| Ingest.Spaced | semantic_agent/pipeline/ingest.py:19 | after lowering and replacing spaces, no capital and no space is left |
| Ingest.CamelToSnakeShape | semantic_agent/pipeline/ingest.py:17-20 | the result has no capital, no space, and does not start or end with "_" |
| Ingest.SnakeShapedFixed | semantic_agent/pipeline/ingest.py:17-20 | a name already in that shape is returned unchanged |
| Ingest.CamelToSnakeIdempotent | semantic_agent/pipeline/ingest.py:17-20 | converting twice is converting once |
| Ingest.CamelToSnakeSplitsCapitals | semantic_agent/pipeline/ingest.py:18-19 | each capital gets its own underscore: "aID" becomes "a_i_d" |
| Ingest.RenameIfAbsent | semantic_agent/pipeline/ingest.py:72-74 | a rename happens exactly when the old name is present and the new one absent; no other column changes |
| Ingest.SnakeColumns | semantic_agent/pipeline/ingest.py:67 | each column is the snake-cased, stripped header cell, in order |
| Ingest.RenamesOnlyIntoAbsentColumns | semantic_agent/pipeline/ingest.py:68-74 | `end_date_iso` and `game_start_time` are renamed exactly when their targets are absent, nothing is overwritten, and every other column keeps its name |
| Ingest.FirstWinnerMeaning | semantic_agent/pipeline/ingest.py:40-45 | there is no outcome exactly when no token is a dict winner with outcome YES or NO; any outcome found is the outcome of such a token |
| Ingest.FirstWinnerAt | semantic_agent/pipeline/ingest.py:40-45 | the first such token decides, whatever follows it |
| Ingest.ParseTokensSpec | semantic_agent/pipeline/ingest.py:23-46 | missing or NaN tokens give (None, True); otherwise the market is binary exactly when the tokens parse to a list of exactly two; the outcome is that of the first winner, and only a parsed list can have one |
| Ingest.ParseTokens | semantic_agent/pipeline/ingest.py:23-46 | the scanning loop with its `break` computes `ParseTokensSpec` |
| Ingest.ParseTokensExample | semantic_agent/pipeline/ingest.py:38-45 | a NO loser followed by a YES winner gives (YES, binary) |
| Ingest.QuestionOf | semantic_agent/pipeline/ingest.py:121 | the question is stripped |
| Ingest.TagsOf | semantic_agent/pipeline/ingest.py:141-150 | missing, NaN, numeric, "" or unparseable tags give []; parsed JSON must be a string list or the row fails validation; a list cell is turned to strings element by element |
| Ingest.DescriptionOf | semantic_agent/pipeline/ingest.py:152-156 | absent or NaN gives None; a description is the non-empty stripped text of the cell |
| Ingest.IdColumn | semantic_agent/pipeline/ingest.py:114-117 | the id column is one the frame has, absent exactly when neither `question_id` nor `condition_id` exists and the index is used |
| Ingest.MarketIdOf | semantic_agent/pipeline/ingest.py:158 | the id is the non-empty stripped id text, or else the row's index name |
| Ingest.SlugOf | semantic_agent/pipeline/ingest.py:159-160 | the slug is stripped, and a truthy `market_slug` wins over `slug` |
| Ingest.DurationOf | semantic_agent/pipeline/ingest.py:134-137 | a duration exists exactly when both timestamps do |
| Ingest.BuildMarket | semantic_agent/pipeline/ingest.py:162-176 | every field of the built market is the value the row derives for it |
| Ingest.RowMarket | semantic_agent/pipeline/ingest.py:120-176 | a row gives a market exactly when its question is non-empty, it passes the binary, resolved and duration filters, and its tags validate; that market is valid and admissible; a row that passes with bad tags is a ValidationError |
| Ingest.Gather | semantic_agent/pipeline/ingest.py:119-176 | the loop fails exactly when some row fails, with that row's error, and keeps at most one market per row |
| Ingest.LoadRowsErrors | semantic_agent/pipeline/ingest.py:162-176 | the row loop fails exactly when some row's `Market(...)` raises, and then with ValidationError |
| Ingest.LoadRowsAdmissible | semantic_agent/pipeline/ingest.py:121-176 | each loaded market is valid, passes the active filters, and was built from one of the rows |
| Ingest.LoadRowsAllAdmissible | semantic_agent/pipeline/ingest.py:119-179 | a successful loop returns at most one market per row, each valid and admissible |
| Ingest.LoadRowsAppend | semantic_agent/pipeline/ingest.py:119-176 | loading rows in two parts gives the first part's markets followed by the second's: row order is kept and rows are independent |
| Ingest.ReadRows | semantic_agent/pipeline/ingest.py:108 | no `nrows` reads every row, a negative one raises ValueError, otherwise the first `nrows` rows are read |
| Ingest.LoadMarketsFromCsv | semantic_agent/pipeline/ingest.py:78-179 | the load, with its row loop, computes `LoadMarkets` |
| Ingest.LoadMarketsErrors | semantic_agent/pipeline/ingest.py:104-112 | a missing file gives FileNotFoundError; a negative row count or no `question` column gives ValueError; the only other error is a row's ValidationError |
| Ingest.LoadMarketsOk | semantic_agent/pipeline/ingest.py:104-117 | a successful load read an existing file with a `question` column, and is the row loop over the rows read |
| Ingest.LoadFromCsvAndSave | semantic_agent/pipeline/ingest.py:182-208 | a failed load leaves the store alone; a rejected URL raises from `init_schema` with the store unchanged; otherwise the schema exists, the markets table is the old one with the loaded markets upserted, the cluster tables are kept, and the loaded markets are returned |
| Ingest.LoadRowsLoop | semantic_agent/pipeline/ingest.py:119-176 | the `iterrows` loop computes `Gather` of the row outcomes and stops at the first error |
| Embed.BuildMarketText | semantic_agent/pipeline/embed.py:16-21 | the text is the stripped question, plus a space and the stripped description when the description is not blank |
| Embed.MarketTextParts | semantic_agent/pipeline/embed.py:16-21 | the question and the description can be read back off the text at fixed positions |
| Embed.Window | semantic_agent/pipeline/embed.py:102-104 | a slice `s[i : i + n]` has length `n`, or what is left of `s` |
| Embed.AddBatchSize | semantic_agent/pipeline/embed.py:100 | the chunk size is at most 500, and is either 500 or four times the batch size |
| Embed.EffectiveBatchSize | semantic_agent/pipeline/embed.py:67 | a given non-zero batch size wins; None or 0 falls back to the settings |
| Embed.UpsertInChunks | semantic_agent/pipeline/embed.py:101-109 | each upsert has between 1 and `step` ids, all but the last exactly `step`; concatenated, the ids and the documents are the inputs again, and the embeddings too when there is one per id, so the three stay aligned |
| Embed.RunEmbedAndStore | semantic_agent/pipeline/embed.py:46-111 | no markets returns 0 without encoding or upserting; an encoder error or a zero step raises; otherwise the upserts cover the ids, texts and vectors in order, and the result is the number of markets read |
| Clustering.ClusterCount | semantic_agent/pipeline/cluster.py:80-83 | `k` is in [1, n] whenever n >= 1; it is `min(n, scaled, max_clusters)` when both are positive, else `min(n, 1)` |
| Clustering.ClusterIdInjective | semantic_agent/pipeline/cluster.py:104 | different positions give different `c_i` ids |
| Clustering.Members | semantic_agent/pipeline/cluster.py:101 | an id is a member of cluster `c` exactly when some position with that id is labelled `c` |
| Clustering.MemberIffLabel | semantic_agent/pipeline/cluster.py:101 | with distinct ids, an id is in exactly the cluster its label names |
| Clustering.MembersSizeOnlyLabels | semantic_agent/pipeline/cluster.py:101 | cluster sizes depend only on the labels |
| Clustering.ClustersPartition | semantic_agent/pipeline/cluster.py:98-108 | with labels in [0, k), the k clusters together hold every returned id once: their sizes add up to n |
| Clustering.BuildClusters | semantic_agent/pipeline/cluster.py:98-108 | the loop builds exactly k clusters; cluster i is `c_i` with the ids labelled i, in returned order, and category "other"; empty clusters are kept |
| Clustering.BuiltIdsDistinct | semantic_agent/pipeline/cluster.py:100-104 | the built clusters have pairwise distinct ids |
| Clustering.RunClusterAndStore | semantic_agent/pipeline/cluster.py:21-120 | no markets, no vector-store path, no collection or no embeddings return [] and write nothing; a K-means error or too few labels raise with nothing written; otherwise the k clusters built from the labels (MiniBatchKMeans iff n >= 5000) are written once and returned |
| Label.QuestionLines | semantic_agent/pipeline/label.py:50 | the question block keeps the non-blank questions, prefixed by "- ", and at most 200 of them |
| Label.BlankQuestionsTakeNoPlace | semantic_agent/pipeline/label.py:50 | blank questions are dropped before the cut at 200, so they never take a place |
| Label.ReplyData | semantic_agent/pipeline/label.py:85-86 | the data is truthy exactly when the stripped content parses to a truthy value, which is then kept as it is; a failed parse and every falsy value become an empty dict |
| Label.RationaleOf | semantic_agent/pipeline/label.py:89-91 | a missing or null rationale is None; any other value gives the stripped text of its `str()`, and is None exactly when that text is empty |
| Label.CategoryOf | semantic_agent/pipeline/label.py:88-94 | the category is a taxonomy value or "other", has no capital, defaults to "other" when missing, and is the stripped, lowered reply whenever that is in the taxonomy |
| Label.CategoryOfExample | semantic_agent/pipeline/label.py:88 | " Crypto " reads as "crypto" |
| Label.ParseLabel | semantic_agent/pipeline/label.py:85-96 | a reply fails exactly when it is truthy but not a dict (AttributeError); otherwise the label is the normalised category and rationale |
| Label.ParseLabelFallback | semantic_agent/pipeline/label.py:86-94 | an unparseable or empty reply gives ("other", None) |
| Label.LabelSingleCluster | semantic_agent/pipeline/label.py:33-96 | an exception from the chat request propagates; otherwise the label is the parsed reply |
| Label.SelectClusters | semantic_agent/pipeline/label.py:128-131 | the selection is exactly `[:max_clusters]` of the unlabelled clusters (or of all of them) in their order, so with a non-negative count it holds min(`max_clusters`, available) clusters, each unlabelled when asked |
| Label.LabelFor | semantic_agent/pipeline/label.py:136-150 | a cluster whose sample has no question gets ("other", the fixed message) without a request; every label is a taxonomy value or "other" |
| Label.CollectShape | semantic_agent/pipeline/label.py:134-150 | the labels dict has exactly the selected cluster ids, and the loop fails exactly when some labelling raised |
| Label.CollectEntries | semantic_agent/pipeline/label.py:134-150 | every entry of the dict is the label computed for a cluster with that id |
| Label.CollectUnique | semantic_agent/pipeline/label.py:140-150 | an id that occurs once gets exactly the label computed for it |
| Label.LabelsInTaxonomy | semantic_agent/pipeline/label.py:134-156 | whatever the model replies, every returned category is a taxonomy value or "other" |
| Label.RunLabelClusters | semantic_agent/pipeline/label.py:99-156 | a missing API key is a ValueError, no clusters gives {}, both with no write; otherwise the result is the labels collected over the selected clusters, persisted by one `update_cluster_labels` call with the whole dict, and not at all when a labelling raised |
| Label.LabelEach | semantic_agent/pipeline/label.py:135-150 | the labelling loop computes `Collect` of the per-cluster outcomes and stops at the first exception |
| Relations.OutcomeLabel | semantic_agent/pipeline/relations.py:47 | "UNKNOWN" appears exactly for an unresolved market; otherwise the text parses back to the outcome |
| Relations.MarketLine | semantic_agent/pipeline/relations.py:48 | the id, the outcome and the question can be read back at fixed positions of `- [id] (outcome) question` |
| Relations.MarketLines | semantic_agent/pipeline/relations.py:45-49 | one line per market, in input order |
| Relations.HintFor | semantic_agent/pipeline/relations.py:145 | the hint is None exactly when the category is "other", else the category |
| Relations.TaxonomyLine | semantic_agent/pipeline/relations.py:56 | the hint line is present exactly when a non-empty hint is given, and then names it |
| Relations.HintLineIffLabeled | semantic_agent/pipeline/relations.py:56 | a cluster's prompt carries a hint line exactly when its category is neither "other" nor empty (with the hint of line 145) |
| Relations.UserPrompt | semantic_agent/pipeline/relations.py:58-82 | the prompt starts with the hint line followed by the cluster introduction |
| Relations.PromptStartsWithHint | semantic_agent/pipeline/relations.py:56-61 | with a hint the prompt begins "Cluster category hint: ..."; without one it begins with the introduction |
| Relations.PostProcess | semantic_agent/pipeline/relations.py:104-122 | only an exception is an error; unparseable, non-dict or invalid replies give []; the relations kept are valid, and a valid reply is cut to exactly its first `max_relations` (`PyTake`), the whole reply when it fits |
| Relations.Discovered | semantic_agent/pipeline/relations.py:36-122 | fewer than two markets give [] without a request; otherwise the result is the post-processed reply to the prompt |
| Relations.DiscoverRelationsForCluster | semantic_agent/pipeline/relations.py:23-122 | the method with its line-building loop computes `Discovered` |
| Relations.OutcomeOf | semantic_agent/pipeline/relations.py:138-151 | the outcome carries the cluster's id, and no relations exactly when discovery raised |
| Relations.ProcessOneCluster | semantic_agent/pipeline/relations.py:125-151 | the worker computes `OutcomeOf` for its task |
| Relations.ClampWorkers | semantic_agent/pipeline/relations.py:199-204 | the worker count is in [1, 20]: the given count (or the settings', or 5) when in range, else the nearer bound |
| Relations.PendingIsOneFilter | semantic_agent/pipeline/relations.py:211-220 | the labelled filter followed by the resume filter is one filter by both active tests |
| Relations.Eligible | semantic_agent/pipeline/relations.py:211-222 | the eligible clusters are exactly `[:max_clusters]` of the clusters passing both active tests, in the order read; they come from the input, are labelled when asked, are not done when resuming, and number at most `max_clusters` |
| Relations.EligibleIff | semantic_agent/pipeline/relations.py:211-222 | with room for all of them, a cluster is eligible exactly when it passes both filters |
| Relations.EligibleDistinct | semantic_agent/pipeline/relations.py:211-222 | distinct cluster ids stay distinct among the eligible clusters |
| Relations.ById | semantic_agent/pipeline/relations.py:225 | the dict has exactly the ids of the markets, each mapped to a market with that id |
| Relations.ByIdLast | semantic_agent/pipeline/relations.py:225 | a later market with the same id replaces an earlier one |
| Relations.KnownMarkets | semantic_agent/pipeline/relations.py:230-237 | the collected markets are known and usable (resolved when asked), and every usable listed market is collected |
| Relations.KnownMarketsInOrder | semantic_agent/pipeline/relations.py:230-237 | the collected markets are, one for one and in order, the markets of the cluster's ids that are known and usable |
| Relations.CollectMarkets | semantic_agent/pipeline/relations.py:230-237 | the inner loop computes `KnownMarkets` |
| Relations.TasksShape | semantic_agent/pipeline/relations.py:228-243 | the tasks' clusters are the clusters with two or more usable markets, in cluster order; each task sends exactly `[:max_markets_per_cluster]` of the collected markets |
| Relations.BuildTasks | semantic_agent/pipeline/relations.py:228-243 | the outer loop computes `Tasks` |
| Relations.ResultsKeys | semantic_agent/pipeline/relations.py:272-283 | a cluster is in `results` exactly when one of its outcomes had relations and its write went through |
| Relations.FailedMembers | semantic_agent/pipeline/relations.py:272-286 | a cluster is in `failed_clusters` exactly when one of its outcomes raised or its write raised |
| Relations.ResultsValue | semantic_agent/pipeline/relations.py:280 | with distinct ids, a written cluster's result is its number of relations |
| Relations.ExactlyOnePlace | semantic_agent/pipeline/relations.py:272-286 | every dispatched cluster ends up in exactly one of `results` and `failed_clusters` |
| Relations.ResultsSameAt | semantic_agent/pipeline/relations.py:267-286 | at any cluster id, the results agree whatever the completion order |
| Relations.ResultsOrderIndependent | semantic_agent/pipeline/relations.py:267-286 | the returned map does not depend on the order in which tasks complete |
| Relations.FailedOrderIndependent | semantic_agent/pipeline/relations.py:267-286 | the same clusters fail whatever the completion order |
| Relations.RunAll | semantic_agent/pipeline/relations.py:256-268 | the executor runs each submitted task once, giving its outcome |
| Relations.CollectResults | semantic_agent/pipeline/relations.py:269-286 | the `as_completed` loop builds `results`, `failed_clusters` and the write calls from the outcomes in completion order |
| Relations.OutcomesDistinct | semantic_agent/pipeline/relations.py:268 | distinct clusters give outcomes with distinct ids |
| Relations.RunDiscoverRelations | semantic_agent/pipeline/relations.py:154-300 | a missing API key is a ValueError before any read; no clusters give {}; read errors propagate, all with no write; otherwise `failed_clusters` is exactly the failed dispatched clusters and `writes` the write calls of the completed tasks, both in completion order, and, for the distinct ids `read_clusters` returns, the result is the results map, whatever the completion order |
| Evaluate.Ratio | semantic_agent/pipeline/evaluate.py:25 | the accuracy is 0 for n = 0, otherwise `correct / n`, and lies in [0, 1] when correct <= n |
| Evaluate.BucketAccuracy | semantic_agent/pipeline/evaluate.py:23-25 | `EvalBucket.accuracy` is `correct / n`, 0 when n = 0, in [0, 1] |
| Evaluate.Inc | semantic_agent/pipeline/evaluate.py:95-97 | a bump adds one to `n` and one to `correct` when correct |
| Evaluate.Bump | semantic_agent/pipeline/evaluate.py:92-97 | the key's bucket (created empty when new) is bumped and every other entry is unchanged |
| Evaluate.BumpSums | semantic_agent/pipeline/evaluate.py:92-105 | a bump keeps the buckets sound and adds one to the counted total, and one to the correct total when correct |
| Evaluate.EffectiveBuckets | semantic_agent/pipeline/evaluate.py:67 | unset or empty configured buckets fall back to [0.5, 0.7, 0.9]; the result is never empty |
| Evaluate.LabelFromSpec | semantic_agent/pipeline/evaluate.py:47-52 | from any position of sorted boundaries, the loop's label is a range from the boundary before the first one above the score (or 0 at the start) up to it, or `>=` the last boundary when none is above |
| Evaluate.RangeStartUnique | semantic_agent/pipeline/evaluate.py:47-52 | at most one value is the start of a range for a score: the largest boundary the score reaches, or 0 when it reaches none |
| Evaluate.SortedLabelMeaning | semantic_agent/pipeline/evaluate.py:47-52 | over sorted boundaries, the loop's label is a range ending at the first boundary above the score and starting at the largest boundary the score reaches (0 when it reaches none), or `>=` the largest when none is above |
| Evaluate.BucketLabelMeaning | semantic_agent/pipeline/evaluate.py:43-52 | "all" exactly for no boundaries; otherwise a range up to the first boundary above the score, starting at the largest boundary the score reaches (0 when it reaches none), or `>=` the largest boundary, which the score reaches |
| Evaluate.BucketLabelOrderIndependent | semantic_agent/pipeline/evaluate.py:47 | the label does not depend on the order the boundaries are given in |
| Evaluate.BucketLabelExample | semantic_agent/pipeline/evaluate.py:48-51 | with the default boundaries, 0.6 falls in 0.5-0.7 |
| Evaluate.RunNeverLabelsAll | semantic_agent/pipeline/evaluate.py:67 | during a run the "all" bucket never occurs, because the boundaries are never empty |
| Evaluate.ConfidenceBucketLabel | semantic_agent/pipeline/evaluate.py:43-52 | the sort-then-scan loop computes `BucketLabelOf` |
| Evaluate.OutcomesById | semantic_agent/pipeline/evaluate.py:71-75 | the dict has exactly the ids of resolved markets, and each value is the outcome of a market with that id |
| Evaluate.OutcomesByIdLast | semantic_agent/pipeline/evaluate.py:71-75 | the outcome kept for an id is that of the last resolved market with the id |
| Evaluate.Judge | semantic_agent/pipeline/evaluate.py:80-88 | a relation is evaluable exactly when its confidence reaches `min_conf` and both markets are resolved; it is correct exactly when `is_same_outcome` matches whether the outcomes agree |
| Evaluate.RecordSound | semantic_agent/pipeline/evaluate.py:86-105 | recording one evaluable relation keeps every counting invariant |
| Evaluate.TallySound | semantic_agent/pipeline/evaluate.py:77-105 | `total_correct <= total_evaluable <= total_relations`; per-cluster and per-bucket `n` and `correct` add up to the totals; every bucket present has `1 <= n` and `correct <= n` |
| Evaluate.TallyExample | semantic_agent/pipeline/evaluate.py:86-90 | outcomes (Y,Y), (Y,N), (N,N), (Y,N) predicted same, same, same, opposite give 3 correct of 4, accuracy 0.75 |
| Evaluate.EvalResult.constructor | semantic_agent/pipeline/evaluate.py:77 | a new result has the given `total_relations` and all counts zero |
| Evaluate.EvalResult.Accuracy | semantic_agent/pipeline/evaluate.py:38-40 | `EvalResult.accuracy` is `total_correct / total_evaluable`, 0 when nothing was evaluable |
| Evaluate.EvalResult.Add | semantic_agent/pipeline/evaluate.py:86-105 | the loop body updates the totals and both dicts as `Record` describes, leaving `total_relations` alone |
| Evaluate.RunEvaluateRelations | semantic_agent/pipeline/evaluate.py:55-114 | an exception of `read_relations`, then of `read_markets`, propagates; otherwise `total_relations` counts every relation, and the counts are the tally of the relations against the resolved outcomes with the effective buckets |
| Evaluate.TallyRelations | semantic_agent/pipeline/evaluate.py:77-114 | the loop leaves `total_relations` at the number of relations and the counts equal to the tally |
| RunFull.DbUrl | semantic_agent/pipeline/run_full.py:42 | a non-empty given URL wins; None or "" falls back to the settings |
| RunFull.CsvPath | semantic_agent/pipeline/run_full.py:43-45 | a given path is kept; the default is `raw_data_path / polymarket_markets.csv` |
| RunFull.MinDays | semantic_agent/pipeline/run_full.py:46 | a given minimum duration (even 0.0) wins; None falls back to the settings |
| RunFull.PlanShape | semantic_agent/pipeline/run_full.py:54-105 | the plan attempts reset, ingest, embed, cluster, label, relations and evaluate once each in that order, all on one database; ingest gets the chosen CSV and label "csv"; relations run in resume mode |
| RunFull.LoggedFailures | semantic_agent/pipeline/run_full.py:54-112 | the failures logged over the first k stages are the failing stages among them, in order |
| RunFull.WarningsAreFailures | semantic_agent/pipeline/run_full.py:54-112 | over the whole run, the warnings are exactly the failing stages, in stage order |
| RunFull.Attempt | semantic_agent/pipeline/run_full.py:54-58 | one guarded stage makes its call and logs it exactly when it fails |
| RunFull.RunStages | semantic_agent/pipeline/run_full.py:54-112 | every stage is attempted whatever earlier stages did, and the warnings are the logged failures |
| RunFull.RunFullPipeline | semantic_agent/pipeline/run_full.py:14-117 | `configure_logging()` comes first: on a root logger with no handler it installs one, and an unknown level then raises ValueError before the CSV check and any stage; a missing CSV raises FileNotFoundError before any stage; otherwise all seven calls are made in order, and the result is the evaluation's, or a fresh all-zero `EvalResult` when evaluation raised |
| RunFull.EvaluationOutcome | semantic_agent/pipeline/run_full.py:114-117 | a failed evaluation gives a fresh all-zero `EvalResult` |

## Left out

- External services are inputs: the chat model (OpenAI), the sentence encoder (`embed_markets`), K-means and MiniBatchKMeans, every ChromaDB call, pandas `read_csv`, `json.loads` and `json.dumps`, `pd.to_datetime`, `datetime.fromisoformat`, and Python's `str()` of a non-string value. The model reasons about what is done with their results, not about the results themselves.
- The `TypeError` retry of the chat request without `response_format` is not modelled: both requests send the same prompt, so the reply oracle stands for whichever was made. The API key and base URL are not modelled either; they only configure the client.
- Floating-point arithmetic: `int(n * cluster_ratio)` is a given function of `n`, a market's duration is given by a function of its two timestamps, and accuracies are reals.
- Bucket labels are the datatype `All | Range(lo, hi) | AtLeast(b)` rather than the float-formatted text, so the text of the first bucket ("0.0-0.5") is not modelled.
- Evaluate.EvalResult: the two dicts of `EvalBucket` objects are maps to bucket values that the result's methods reassign. Aliasing of a bucket object is not modelled, because the source never shares one.
- `Strings.Lower` and the upper-casing of the level name cover ASCII letters only; `Strings.Strip` strips ASCII white space only. There is no Unicode case mapping or normalisation.
- Concurrency: the `ThreadPoolExecutor` and `as_completed` are modelled as every task run once, then collected in an arbitrary permutation. The log buffer's `Lock` is left out, and the buffer is single-threaded.
- The outer `except` around `future.result()` (relations.py:284-286) cannot fire, because `_process_one_cluster` catches every exception, so it is not modelled.
- Store functions whose code is not part of this model: the writes `write_relations_for_cluster` and `update_cluster_labels` are returned as `Store.StoreCall` values in a stage's `writes`, with their arguments and no effect on the tables. The reads are inputs: `get_cluster_ids_with_relations` is the `done` set of `Relations.RunDiscoverRelations`, `read_markets_by_ids` the `byIds` function of `Label.RunLabelClusters`, and `read_relations` the `Result` argument of `Evaluate.RunEvaluateRelations`. `clear_derived_data` is reached only through reset.py (next line).
- SQLite itself, the file system, `mkdir` and `Path.resolve` are left out. The tables are fields of `Store.Database`, file existence is a boolean, and paths are component lists with no `..` resolution and no symbolic links. `Config.Components` reads a name the way POSIX pathlib does ("/" separates components, and empty and "." pieces are dropped); backslashes and Windows drives are not modelled.
- `read_markets_by_ids` (label.py:137) and `get_cluster_ids_with_relations` (relations.py:215) are total inputs: a `byIds` function and a `done` set. An exception they raise is not modelled; `read_clusters` and `read_markets` are `Result` inputs, so theirs are.
- The `start_time or game_start_time` and `end_time or end_date_iso` fallbacks (ingest.py:132-133) are not modelled: `CsvRow.startTime` and `CsvRow.endTime` are the timestamps already chosen and parsed.
- Settings that `config.py` does not define are parameters of the stages that read them (`chroma_*`, `relations_*`, `eval_*`, `label_*`, `max_clusters`, `embed_batch_size`). Reading `.env` is not modelled.
- The `configure_logging()` call at the start of each stage entry point is not modelled: semantic_agent/pipeline/relations.py:174, label.py:111, cluster.py:36, embed.py:59, evaluate.py:63 and store.py:28. The root logger is taken as configured there. Inside `run_full_pipeline`, whose own call is modelled, each of these is a no-op, because a handler is installed by then. A stage run alone with an unknown `VERIBOND_LOG_LEVEL` on a fresh logger would raise ValueError, and that case is not modelled.
- Log messages, their formatting and timestamps, and `_JsonFormatter` are left out. Only which handler is installed, and which failures `run_full_pipeline` warns about, are modelled.
- semantic_agent/pipeline/reset.py is not part of this model: it only delegates to `clear_derived_data` and to ChromaDB. Of it, only the call `run_reset` is recorded, as the `RunFull.RunReset` step of a full run. The package `__init__` files only re-export names.
- FastAPI routing, CORS, the route handlers that only delegate to pipeline functions, the health endpoint and the async file object are left out. An upload is the sequence of chunks `file.read` returns.
- `markets` and `clusters` in `run_full_pipeline` are reassigned from stage results but never used afterwards, so they are not modelled.
- `Models.RelatedMarketsResponse` is not used by the core, so it is not modelled.
- Relations.RunDiscoverRelations: the returned map is stated only when the clusters read have distinct ids. `Store.Database.ReadClusters` guarantees distinct ids.
- Store.EncodeMarket: its own contract states only the key. The other bound columns are stated through `Store.MarketRoundTrip`.
- Ingest.LoadFromCsvAndSave: `init_schema` followed by `write_markets` is stated for the store's tables. The duplicate `init_schema` inside `write_markets` changes nothing further, as `Store.Database.InitSchema` shows.

## Behaviour as written

The model follows the code where the code and its docstrings or comments disagree:
- `_camel_to_snake("questionID")` gives `"question_i_d"`, not the `question_id` the docstring promises. Every capital after the first character gets its own underscore (`Ingest.CamelToSnakeSplitsCapitals`).
- `ALLOWED_CSV_NAME` ends in `$`, which also matches before a final newline, so `"my_data.csv\n"` is accepted (`AdminApp.AllowedNameExamples`).
- `discover_relations_for_cluster` returns `[]` for an unparseable, non-dict or invalid reply. Such a cluster is recorded as a success with `results[cid] = 0`, and its empty list is written. Only an exception counts as a failure (`Relations.PostProcess`, `Relations.ResultsKeys`).
- `results[cid]` is `len(relations)`, not anything the store returns. `failed_clusters` is only logged (`Relations.RunDiscoverRelations`).
- Because of the `or` at evaluate.py:67, the "all" bucket cannot occur in a run (`Evaluate.RunNeverLabelsAll`).
- `write_clusters([])` returns early and clears nothing (`Store.Database.WriteClusters`).
- `get_logs(0)` returns the whole buffer, because `[-0:]` is the whole list. A negative tail drops the oldest lines (`LogBuffer.LineBuffer.GetLogs`). The API clamps the tail into [1, 5000], so neither case is reachable from `GET /api/logs`.
- `run_embed_and_store` with a negative batch size makes the `range` step negative: nothing is upserted and the market count is still returned. A zero step raises ValueError (`Embed.RunEmbedAndStore`).
- Sorting in `list_datasets` is by code point (`Strings.LexLe`), as Python compares strings.
