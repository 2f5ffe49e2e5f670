# BigQuery connector client: a Dafny model of its own decisions

This project models the deterministic core of `BigQueryClient`, the class the connector uses
to talk to BigQuery. The remote calls stay abstract. The model covers what the class itself
decides and builds:

- how table identities are rendered: the dotted `project.dataset.table` name and the
  `projects/P/datasets/D/tables/T` storage path;
- the SQL text it builds: SELECT over a column list with filters, COUNT(*) for size
  estimation, and the MERGE that overwrites a table from a temporary one;
- read-target resolution (`getReadTable` / `validateViewsEnabled`): materialize a query,
  return a table as fetched, report it missing, or reject it;
- size estimation (`calculateTableSize`): the stored row count, a COUNT(*) query, or an
  argument error;
- placement, naming and expiry of generated tables (`createTempTable`,
  `createDestinationTable`, `DestinationTableBuilder.createTableFromQuery`);
- the process-wide materialization cache, keyed by query text, with get-or-load semantics;
- the type filter of `listTables`.

The remote warehouse service is the datatype `TableModel.Service`, a bundle of oracle
functions: table lookup, run-a-query-job-and-wait, update, query and list. The clock readings
(`System.nanoTime`, `System.currentTimeMillis`) and the random UUID are parameters. Java
`null` is `Option.None`. Exceptions are `Result.Failure` values of `TableModel.Error`; a table
lookup and a query can fail with the service's own error, which the client lets through.
Java `long` arithmetic wraps explicitly (`JavaLang.AddLong`).

Modules, leaf first: `Wrappers`, `JavaLang`, `Text` / `TextOrder`, `TableModel`, `Naming`,
`SqlTemplates`, `ReadTable`, `TableSize`, `Placement`, `Listing`, `Jobs`, `Client`.
`Client` holds the only mutable state, the class `MaterializationCache` (a map field plus a
ghost log of loader runs). The class `BigQueryClient` holds the service, the configuration
and a reference to that cache, all fixed at construction.

The model follows the code as written, including these details:

- Column names are wrapped in backticks but not escaped.
- The COUNT(*) statement puts its filter after `WHERE` without parentheses, unlike `createSql`.
- Both statements end in a space when there is no filter.
- `createTablePathForBigQueryStorage` prints a missing project as `null`.

## Model

| member | source | states |
|---|---|---|
| Naming.FullTableName | bigquery-connector-common/src/main/java/com/google/cloud/bigquery/connector/common/BigQueryClient.java:352-359 | the full name leads with the project and a dot, or without a project with the dataset and a dot, and ends with a dot and the table |
| Naming.FullTableNameIsDotJoin | bigquery-connector-common/src/main/java/com/google/cloud/bigquery/connector/common/BigQueryClient.java:352-359 | the full name is the dot-join of project (when present), dataset and table, with no escaping |
| Naming.FullTableNameRoundTrip | bigquery-connector-common/src/main/java/com/google/cloud/bigquery/connector/common/BigQueryClient.java:352-359 | when no part holds a dot, splitting the full name on dots gives back exactly its parts; three parts exactly when a project is set |
| Naming.FullTableNameAmbiguousWithDots | bigquery-connector-common/src/main/java/com/google/cloud/bigquery/connector/common/BigQueryClient.java:352-359 | without escaping, a two-part id whose dataset contains a dot renders the same as a three-part id |
| Naming.StoragePath | bigquery-connector-common/src/main/java/com/google/cloud/bigquery/connector/common/BigQueryClient.java:209-213 | the storage path leads with the projects/ keyword and ends with the table name |
| Naming.StoragePathRoundTrip | bigquery-connector-common/src/main/java/com/google/cloud/bigquery/connector/common/BigQueryClient.java:209-213 | when no part holds a slash, splitting the storage path on slashes yields projects, P, datasets, D, tables, T in order |
| Naming.StoragePathOfMissingProject | bigquery-connector-common/src/main/java/com/google/cloud/bigquery/connector/common/BigQueryClient.java:209-213 | a missing project prints as the text null, the same as a project named null |
| Naming.ToDatasetId | bigquery-connector-common/src/main/java/com/google/cloud/bigquery/connector/common/BigQueryClient.java:260-262 | the dataset id keeps the table's project and dataset; a two-part id, whose project is null, fails with a null dereference |
| SqlTemplates.JoiningIsConjunction | bigquery-connector-common/src/main/java/com/google/cloud/bigquery/connector/common/BigQueryClient.java:103 | joining with ") AND (" between the filters and "(" ... ")" around them gives (f1) AND ... AND (fn) in input order |
| SqlTemplates.WhereClause | bigquery-connector-common/src/main/java/com/google/cloud/bigquery/connector/common/BigQueryClient.java:99-104 | the WHERE clause is absent exactly when there are no filters, and otherwise is the parenthesised conjunction in input order |
| SqlTemplates.JoinQuoted | bigquery-connector-common/src/main/java/com/google/cloud/bigquery/connector/common/BigQueryClient.java:335-337 | backtick-wrapping each column and joining with commas equals one backtick-delimited join with backtick-comma-backtick separators |
| SqlTemplates.ColumnList | bigquery-connector-common/src/main/java/com/google/cloud/bigquery/connector/common/BigQueryClient.java:331-337 | an empty column list selects *, otherwise each column in order is backticked and comma-separated |
| SqlTemplates.CreateSql | bigquery-connector-common/src/main/java/com/google/cloud/bigquery/connector/common/BigQueryClient.java:344-350 | SELECT sel FROM `full name` followed by WHERE and the conjunction only when there are filters, else by a trailing space |
| SqlTemplates.CreateSqlForColumns | bigquery-connector-common/src/main/java/com/google/cloud/bigquery/connector/common/BigQueryClient.java:331-340 | the column-list overload is the preformatted overload applied to * or to the backticked column list |
| SqlTemplates.CountSql | bigquery-connector-common/src/main/java/com/google/cloud/bigquery/connector/common/BigQueryClient.java:374-376 | the COUNT(*) statement names the backticked full table name and appends WHERE f, unparenthesised, only when a filter is given |
| SqlTemplates.SqlFromFormat | bigquery-connector-common/src/main/java/com/google/cloud/bigquery/connector/common/BigQueryClient.java:196-200 | the destination's full name fills the first placeholder and the temporary table's the second |
| SqlTemplates.OverwriteSql | bigquery-connector-common/src/main/java/com/google/cloud/bigquery/connector/common/BigQueryClient.java:180-189 | the destination's full name stands right after MERGE `, the temporary's right after the USING (SELECT * FROM ` that follows it |
| SqlTemplates.OverwriteSqlClauses | bigquery-connector-common/src/main/java/com/google/cloud/bigquery/connector/common/BigQueryClient.java:180-199 | the overwrite text starts with MERGE `dest`, then USING (SELECT * FROM `temp`), ON FALSE, the insert-unmatched and delete-unmatched-by-source clauses, in that order |
| TableModel.TypeName | bigquery-connector-common/src/main/java/com/google/cloud/bigquery/connector/common/BigQueryClient.java:231-246 | TABLE, EXTERNAL, VIEW and MATERIALIZED_VIEW each print as their own name, any other kind prints as its name, and no other kind prints as one of the four |
| TableModel.TypeNameInjective | bigquery-connector-common/src/main/java/com/google/cloud/bigquery/connector/common/BigQueryClient.java:231-246 | distinct kinds print differently, so a message naming a kind identifies it |
| ReadTable.ValidateViewsEnabled | bigquery-connector-common/src/main/java/com/google/cloud/bigquery/connector/common/BigQueryClient.java:249-258 | fails exactly when views are disabled, with UNSUPPORTED and a message naming the views parameter |
| ReadTable.UnsupportedKindError | bigquery-connector-common/src/main/java/com/google/cloud/bigquery/connector/common/BigQueryClient.java:241-246 | the rejection is UNSUPPORTED and its message names the kind and dataset.table |
| ReadTable.PlanReadTable | bigquery-connector-common/src/main/java/com/google/cloud/bigquery/connector/common/BigQueryClient.java:215-247 | only a query request is materialized, and exactly when views are enabled; a failing lookup's error goes through; a missing table yields null; the fetched table is returned unchanged iff it is a TABLE or EXTERNAL, or a view kind with views enabled; a query or view with views disabled is rejected with the views-disabled error, and any other kind with the unsupported-kind error |
| ReadTable.QueryPlanIgnoresLookup | bigquery-connector-common/src/main/java/com/google/cloud/bigquery/connector/common/BigQueryClient.java:216-223 | a query request is decided without consulting the table lookup |
| ReadTable.OtherKindRejected | bigquery-connector-common/src/main/java/com/google/cloud/bigquery/connector/common/BigQueryClient.java:241-246 | a fetched table of any other kind is rejected naming kind, dataset and table |
| TableSize.UnsupportedSizeError | bigquery-connector-common/src/main/java/com/google/cloud/bigquery/connector/common/BigQueryClient.java:379-384 | the argument error names the kind and the table's full name |
| TableSize.PlanTableSize | bigquery-connector-common/src/main/java/com/google/cloud/bigquery/connector/common/BigQueryClient.java:365-384 | stored count exactly for an unfiltered TABLE; COUNT(*) over the table with the filter exactly for views, materialized views and filtered tables; otherwise an argument error |
| TableSize.FirstScalar | bigquery-connector-common/src/main/java/com/google/cloud/bigquery/connector/common/BigQueryClient.java:377-388 | the size is the first value of the first row; no rows is an exhausted iterator; interruption is a connector error caused by it; a failed query's own error goes through |
| TableSize.CalculateTableSize | bigquery-connector-common/src/main/java/com/google/cloud/bigquery/connector/common/BigQueryClient.java:365-389 | an unfiltered TABLE yields its row count truncated to a long (null count fails); count cases yield the count query's first value; rejections fail |
| TableSize.SizeWithoutQuery | bigquery-connector-common/src/main/java/com/google/cloud/bigquery/connector/common/BigQueryClient.java:367-384 | unfiltered tables and rejected kinds are sized without running any query |
| TableSize.FortyTwoRows | bigquery-connector-common/src/main/java/com/google/cloud/bigquery/connector/common/BigQueryClient.java:368-378 | a 42-row table sizes to 42 unfiltered, and to the query's answer when filtered |
| TableSize.CalculateTableSizeOf | bigquery-connector-common/src/main/java/com/google/cloud/bigquery/connector/common/BigQueryClient.java:361-363 | the id overload looks the table up, lets a failing lookup's error through, fails on a missing table, and otherwise sizes the fetched table |
| Placement.NewTableInfo | bigquery-connector-common/src/main/java/com/google/cloud/bigquery/connector/common/BigQueryClient.java:127-130 | createTable asks for a plain table at the id with no expiration |
| Placement.TempTableName | bigquery-connector-common/src/main/java/com/google/cloud/bigquery/connector/common/BigQueryClient.java:146 | the temporary name is the destination table's name followed by exactly the decimal text of the nanoTime reading |
| Placement.TempTableId | bigquery-connector-common/src/main/java/com/google/cloud/bigquery/connector/common/BigQueryClient.java:143-150 | the configured materialization project and dataset win over the destination's; the name is the destination's name plus the nanoTime text |
| Placement.TempTableIdsDistinct | bigquery-connector-common/src/main/java/com/google/cloud/bigquery/connector/common/BigQueryClient.java:146-150 | two temporary ids for one destination at different nanoTime readings differ |
| Placement.TempTableNameParts | bigquery-connector-common/src/main/java/com/google/cloud/bigquery/connector/common/BigQueryClient.java:144-150 | the temporary id renders as two dotted parts exactly when neither configuration nor destination gives a project |
| Placement.TempTableInfo | bigquery-connector-common/src/main/java/com/google/cloud/bigquery/connector/common/BigQueryClient.java:151-155 | the temporary table is a plain table at the temporary id expiring now + 86,400,000 ms (when that fits a long) |
| Placement.MaterializedTableName | bigquery-connector-common/src/main/java/com/google/cloud/bigquery/connector/common/BigQueryClient.java:284-286 | the name is _bqc_ followed by the UUID text lower-cased with its hyphens removed, so with no hyphens and no upper-case letters |
| Placement.MaterializedTableNameOfPlainUuid | bigquery-connector-common/src/main/java/com/google/cloud/bigquery/connector/common/BigQueryClient.java:284-286 | a UUID text with no hyphen and no upper-case letter gives exactly _bqc_ followed by that text |
| Placement.MaterializedTableNameDropsHyphen | bigquery-connector-common/src/main/java/com/google/cloud/bigquery/connector/common/BigQueryClient.java:284-286 | a hyphen anywhere in the UUID text makes no difference to the name |
| Placement.DestinationTableId | bigquery-connector-common/src/main/java/com/google/cloud/bigquery/connector/common/BigQueryClient.java:280-288 | configured project and dataset win over the reference values; two-part exactly without a project; fails exactly when no dataset results |
| Placement.QueryDestination | bigquery-connector-common/src/main/java/com/google/cloud/bigquery/connector/common/BigQueryClient.java:398-401 | a query's destination is placed by the configuration alone, in the configured project and dataset under the _bqc_ name; without a configured dataset it fails with a null dereference |
| Placement.ViewDestination | bigquery-connector-common/src/main/java/com/google/cloud/bigquery/connector/common/BigQueryClient.java:414-420 | a view's destination always resolves under the _bqc_ name; its project and dataset are each the configured one when set, otherwise the view's own, field by field |
| Placement.MaterializedExpiry | bigquery-connector-common/src/main/java/com/google/cloud/bigquery/connector/common/BigQueryClient.java:486-487 | the expiry is creation time plus minutes times 60,000 whenever that fits a long |
| Placement.MaterializedExpiryAfterCreation | bigquery-connector-common/src/main/java/com/google/cloud/bigquery/connector/common/BigQueryClient.java:486-487 | for realistic creation times and a positive window the expiry lies after creation |
| JavaLang.MinutesToMillis | bigquery-connector-common/src/main/java/com/google/cloud/bigquery/connector/common/BigQueryClient.java:487 | the minute conversion keeps the sign of its argument |
| JavaLang.MinutesToMillisOfIntIsExact | bigquery-connector-common/src/main/java/com/google/cloud/bigquery/connector/common/BigQueryClient.java:487 | for int minute counts the conversion is exact, never saturating |
| JavaLang.LongToStringInjective | bigquery-connector-common/src/main/java/com/google/cloud/bigquery/connector/common/BigQueryClient.java:146 | distinct longs render to distinct decimal strings |
| Text.ToLowerAscii | bigquery-connector-common/src/main/java/com/google/cloud/bigquery/connector/common/BigQueryClient.java:286 | lower-casing keeps the length and maps each character on its own |
| Text.RemoveChar | bigquery-connector-common/src/main/java/com/google/cloud/bigquery/connector/common/BigQueryClient.java:286 | removing hyphens leaves no hyphen and only characters of the input |
| Text.RemoveCharIdentity | bigquery-connector-common/src/main/java/com/google/cloud/bigquery/connector/common/BigQueryClient.java:286 | removing hyphens changes nothing exactly when there were none |
| Listing.KeepKinds | bigquery-connector-common/src/main/java/com/google/cloud/bigquery/connector/common/BigQueryClient.java:275-277 | the kept tables are exactly the listed tables whose kind is allowed |
| Listing.KeepKindsConcat | bigquery-connector-common/src/main/java/com/google/cloud/bigquery/connector/common/BigQueryClient.java:275-277 | filtering distributes over concatenation, so kept tables stay in listed order |
| Listing.KeepKindsOfAllowed | bigquery-connector-common/src/main/java/com/google/cloud/bigquery/connector/common/BigQueryClient.java:275-277 | a listing whose tables are all of allowed kinds is kept whole |
| Listing.ListTables | bigquery-connector-common/src/main/java/com/google/cloud/bigquery/connector/common/BigQueryClient.java:272-278 | listTables returns exactly the dataset's tables whose kind is among the given types |
| Jobs.WaitForJobAsWritten | bigquery-connector-common/src/main/java/com/google/cloud/bigquery/connector/common/BigQueryClient.java:82-96 | as written, every finished job passes and a missing job is a null dereference |
| Jobs.WaitForJobAsWrittenIgnoresErrors | bigquery-connector-common/src/main/java/com/google/cloud/bigquery/connector/common/BigQueryClient.java:88 | as written, a job finished with an error is reported as a success |
| Jobs.WaitForJob | bigquery-connector-common/src/main/java/com/google/cloud/bigquery/connector/common/BigQueryClient.java:82-96 | corrected: succeeds exactly when the job finished without error, and a job error becomes an exception carrying its text |
| Jobs.OverwriteJob | bigquery-connector-common/src/main/java/com/google/cloud/bigquery/connector/common/BigQueryClient.java:178-194 | the overwrite submits the MERGE text as a standard-SQL query job with no destination of its own |
| Jobs.DestinationTableBuilder.Job | bigquery-connector-common/src/main/java/com/google/cloud/bigquery/connector/common/BigQueryClient.java:473-477 | the materialization job runs the query with the destination table as its output |
| Jobs.DestinationTableBuilder.CreateTableFromQuery | bigquery-connector-common/src/main/java/com/google/cloud/bigquery/connector/common/BigQueryClient.java:471-491 | each path of lines 479-490: an interrupted wait, a vanished job, an error status, a failing lookup, a missing table and a null creation time each fail as stated; a clean job whose table has a creation time yields exactly the update of that table with expiry creation + window; success happens only on that path |
| Jobs.MaterializationError | bigquery-connector-common/src/main/java/com/google/cloud/bigquery/connector/common/BigQueryClient.java:428-434 | a failed load becomes BIGQUERY_VIEW_DESTINATION_TABLE_CREATION_FAILED naming the SQL, with the loader's error as its cause (Guava's wrapper around it is not modelled) |
| Client.MaterializationCache.constructor | bigquery-connector-common/src/main/java/com/google/cloud/bigquery/connector/common/BigQueryClient.java:61-62 | the cache starts empty with no loads |
| Client.MaterializationCache.GetOrLoad | bigquery-connector-common/src/main/java/com/google/cloud/bigquery/connector/common/BigQueryClient.java:425-427 | a hit returns the stored table and runs nothing; a miss runs the loader once, logs it and stores a successful result under the query text; in this model, which never evicts, no text is loaded again after a success |
| Client.BigQueryClient.constructor | bigquery-connector-common/src/main/java/com/google/cloud/bigquery/connector/common/BigQueryClient.java:68-75 | the client keeps its service, materialization location and the shared cache |
| Client.BigQueryClient.MaterializeTable | bigquery-connector-common/src/main/java/com/google/cloud/bigquery/connector/common/BigQueryClient.java:422-435 | a cached query text yields its table with the cache unchanged; otherwise the builder's outcome is logged, cached on success, and wrapped naming the SQL on failure |
| Client.BigQueryClient.MaterializeQueryToTable | bigquery-connector-common/src/main/java/com/google/cloud/bigquery/connector/common/BigQueryClient.java:398-401 | the destination is chosen before the cache is consulted and fails without a configured dataset, leaving the cache unchanged; a cached text is reused; otherwise the builder for the configured destination runs once, its success is cached and returned, and its failure is wrapped naming the SQL |
| Client.BigQueryClient.MaterializeViewToTable | bigquery-connector-common/src/main/java/com/google/cloud/bigquery/connector/common/BigQueryClient.java:414-420 | the view's location is the default destination; a cached text is reused; otherwise the builder runs once, its success is cached and returned, and its failure is wrapped naming the SQL |
| Client.BigQueryClient.GetReadTable | bigquery-connector-common/src/main/java/com/google/cloud/bigquery/connector/common/BigQueryClient.java:215-247 | only a permitted query request touches the cache: without a configured dataset it fails with the cache unchanged, a cached text is reused, and a new text runs the builder once with its success cached and returned and its failure wrapped; tables, external tables and permitted views come back as fetched, a missing table as nothing, a failed lookup or rejection as the error |

## Left out

- Remote traffic is not modelled. This covers `bigQuery.getTable`, `create` (tables and jobs), `delete`, `update`, `query`, `listDatasets`, `listTables` and `getOptions().getProjectId()`. They are oracles in `TableModel.Service`, or they are not modelled at all. Table lookup, update and query can fail with the service's error; submitting a job and listing cannot.
- `Listing.ListTables`: a failure of the listing call itself is not modelled; the oracle always returns a listing.
- `getTable`, `tableExists`, `deleteTable`, `update`, `getProjectId`, `listDatasets` and `create`: each is a single delegation to the service, with no logic of its own.
- `createTable` and `createTempTable`: the model gives the table each asks the service to create (`NewTableInfo`, `TempTableInfo`). The create call itself is not modelled.
- `createAndWaitFor` and `query(String)`: blocking waits on library futures. Re-raising the thread's interrupt flag is a runtime concern.
- `Jobs.DestinationTableBuilder.CreateTableFromQuery`: a failure to submit the job is not a separate case. It folds into the job outcome.
- `Jobs.DestinationTableBuilder.CreateTableFromQuery`: an interrupted wait is a service error whose message leaves out the job id, and the interruption it wraps as its cause is not kept.
- Guava cache internals are not modelled: thread-safe single-flight loading, 15-minute expire-after-write and eviction at 1000 entries. The bounds are the constants `Client.ExpireAfterWriteMinutes` and `Client.MaximumSize`. The cache is a map that only grows, and each call is one sequential step, so `Client.MaterializationCache.Valid`'s "no text is loaded again after a success" holds in this model but not in the program, which reloads a text after expiry or eviction.
- Logging (`log.info`, `log.debug`).
- Schemas and the other `TableInfo` fields. Only id, kind, row count, creation time and expiration time are modelled.
- `Text.ToLowerAscii`: lower-cases ASCII letters only. `toLowerCase(Locale.ENGLISH)` also maps non-ASCII letters, which a UUID string never holds.
- `TableId.of` and `DatasetId.of` are not part of this model. Following their null checks, `Placement.DestinationTableId` fails when no dataset results and `Naming.ToDatasetId` fails when the table has no project.
- `Jobs.MaterializationError`: the cause is the loader's error itself. In the program, Guava's `Cache.get` first wraps that error in an `UncheckedExecutionException`, and that wrapper becomes the cause.
- `TableSize.FirstScalar`: a size-query interruption is a connector error with no code. The `BigQueryConnectorException` constructor's default code is not modelled.

## Findings

| source | as written | input that shows it | evidently intended | confidence | as-written member | corrected member |
|---|---|---|---|---|---|---|
| bigquery-connector-common/src/main/java/com/google/cloud/bigquery/connector/common/BigQueryClient.java:88 | `completedJob == null && completedJob.getStatus().getError() != null` ignores the status of every job that exists, and dereferences a job that does not | a job that finishes with an error status (`JobDone(Some(e))`) passes as a success (Jobs.WaitForJobAsWrittenIgnoresErrors); `waitFor` returning null raises a NullPointerException | fail when the job is missing or finished with an error (the null test negated and the two tests joined by OR) | high; not executed | Jobs.WaitForJobAsWritten | Jobs.WaitForJob |

The static `waitForJob` is not called anywhere else in this class, so no other member of the
model depends on either version.
