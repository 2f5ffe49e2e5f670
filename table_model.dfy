/**
 * The values the client works with: table and dataset identities, the table metadata it
 * reads (kind, row count, creation and expiration time), query jobs, the errors it raises,
 * and the remote warehouse service, given as oracle functions.
 */
module TableModel {
  import opened Wrappers
  import opened JavaLang

  /** `TableId`: the project is optional (a two-part id), dataset and table are not */
  datatype TableId = TableId(project: Option<string>, dataset: string, table: string)

  /** `DatasetId` */
  datatype DatasetId = DatasetId(project: Option<string>, dataset: string)

  /** The names of the four kinds the client treats specially */
  const NamedKinds: seq<string> := ["TABLE", "EXTERNAL", "VIEW", "MATERIALIZED_VIEW"]

  /** The name of any further kind (SNAPSHOT, MODEL, ...); never one of the four named kinds */
  type OtherKindName = s: string | s !in NamedKinds witness "SNAPSHOT"

  /** `TableDefinition.Type` */
  datatype TableType = Table | External | View | MaterializedView | Other(name: OtherKindName)

  /** The kind's `toString()`, as it appears in error messages; the four named kinds have names of their own */
  function TypeName(t: TableType): (r: string)
    ensures r in NamedKinds <==> !t.Other?
    ensures t.Other? ==> r == t.name
    ensures t == Table ==> r == "TABLE"
    ensures t == External ==> r == "EXTERNAL"
    ensures t == View ==> r == "VIEW"
    ensures t == MaterializedView ==> r == "MATERIALIZED_VIEW"
  {
    match t
    case Table => "TABLE"
    case External => "EXTERNAL"
    case View => "VIEW"
    case MaterializedView => "MATERIALIZED_VIEW"
    case Other(name) => name
  }

  /**
   * `TableInfo`, reduced to the fields the client reads or sets. `None` stands for a Java null:
   * the row count of a view, a creation time not yet known, an unset expiration.
   */
  datatype TableInfo = TableInfo(
    id: TableId,
    kind: TableType,
    numRows: Option<nat>,
    creationTime: Option<Long>,
    expirationTime: Option<Long>)

  /** The `BigQueryErrorCode` values this client raises */
  datatype ErrorCode = Unsupported | BigQueryViewDestinationTableCreationFailed

  /** The exceptions the client raises or lets through */
  datatype Error =
    | ConnectorError(code: Option<ErrorCode>, message: string, cause: Option<Error>)  // BigQueryConnectorException
    | IllegalArgument(message: string)                                                // IllegalArgumentException
    | NullPointer(what: string)                                                        // NullPointerException
    | ServiceError(message: string)                                                    // BigQueryException and other failures of a remote call
    | RuntimeFailure(message: string)                                                  // RuntimeException / UncheckedIOException
    | Interruption                                                                     // InterruptedException of a blocking wait
    | NoSuchElement                                                                    // NoSuchElementException of an exhausted iterator

  /** A query job configuration: its SQL, the table it writes to, and `useLegacySql` when set */
  datatype QueryJob = QueryJob(sql: string, destination: Option<TableId>, useLegacySql: Option<bool>)

  /**
   * What waiting on a submitted job yields: the wait was interrupted, the job no longer exists
   * (`waitFor` returned null), or it finished with the given error status (`None`: no error).
   */
  datatype JobOutcome = JobInterrupted | JobMissing | JobDone(error: Option<string>)

  /**
   * What `bigQuery.query` yields: the first column of each result row, an interruption of the
   * wait, or the service's own failure (a rejected statement, a failed job).
   */
  datatype QueryOutcome = QueryRows(firstColumn: seq<Long>) | QueryInterrupted | QueryFailed(error: Error)

  /**
   * The remote warehouse service as oracles: table lookup (null when absent, and failing on
   * any other error), submitting a query job and waiting for it, pushing a table update,
   * running a query, listing a dataset.
   */
  datatype Service = Service(
    getTable: TableId -> Result<Option<TableInfo>, Error>,
    runQueryJob: QueryJob -> JobOutcome,
    update: TableInfo -> Result<TableInfo, Error>,
    query: string -> QueryOutcome,
    listTables: DatasetId -> seq<TableInfo>)

  /** Distinct kinds print differently, so a message naming a kind identifies it. */
  lemma TypeNameInjective(a: TableType, b: TableType)
    requires TypeName(a) == TypeName(b)
    ensures a == b
  {
    if !a.Other? && !b.Other? {
      assert "TABLE" != "EXTERNAL" && "TABLE" != "VIEW" && "TABLE" != "MATERIALIZED_VIEW";
      assert "EXTERNAL" != "VIEW" && "EXTERNAL" != "MATERIALIZED_VIEW" && "VIEW" != "MATERIALIZED_VIEW";
    }
  }

  /** A lookup that succeeded and found a table */
  predicate Found(lookup: Result<Option<TableInfo>, Error>) {
    lookup.Success? && lookup.value.Some?
  }
}
