/**
 * Read-target resolution: from a read request (a table id, or an ad-hoc query) decide, in a
 * single pass, whether to materialize the query, read the table as it is, report it missing,
 * or reject it.
 */
module ReadTable {
  import opened Wrappers
  import opened JavaLang
  import opened Text
  import opened TableModel

  /** `ReadTableOptions` */
  datatype ReadTableOptions = ReadTableOptions(
    tableId: TableId,
    query: Option<string>,
    viewsEnabled: bool,
    viewEnabledParamName: string,
    expirationTimeInMinutes: Int32)

  function ViewsDisabledMessage(paramName: string): string {
    "Views are not enabled. You can enable views by setting '" + paramName
      + "' to true. Notice additional cost may occur."
  }

  /**
   * `validateViewsEnabled`: nothing when views may be read, otherwise the UNSUPPORTED error
   * whose message names the switch the caller must set.
   */
  function ValidateViewsEnabled(options: ReadTableOptions): (r: Option<Error>)
    ensures r.None? <==> options.viewsEnabled
    ensures r.Some? ==> r.value.ConnectorError? && r.value.code == Some(Unsupported)
    ensures r.Some? ==> r.value.cause.None? && Contains(r.value.message, options.viewEnabledParamName)
  {
    if options.viewsEnabled then None
    else
      ContainsMiddle("Views are not enabled. You can enable views by setting '",
        options.viewEnabledParamName, "' to true. Notice additional cost may occur.");
      Some(ConnectorError(Some(Unsupported), ViewsDisabledMessage(options.viewEnabledParamName), None))
  }

  /** Kinds that are read as they are */
  predicate IsDirectlyReadable(kind: TableType) {
    kind == Table || kind == External
  }

  /** Kinds that are read through materialization, so only with views enabled */
  predicate IsViewKind(kind: TableType) {
    kind == View || kind == MaterializedView
  }

  /** The UNSUPPORTED error for a table of any other kind; it names the kind, the dataset and the table. */
  function UnsupportedKindError(table: TableInfo): (e: Error)
    ensures e.ConnectorError? && e.code == Some(Unsupported) && e.cause.None?
    ensures Contains(e.message, TypeName(table.kind))
    ensures Contains(e.message, table.id.dataset + "." + table.id.table)
  {
    var kind, name := TypeName(table.kind), table.id.dataset + "." + table.id.table;
    var message := "Table type '" + kind + "' of table '" + name + "' is not supported";
    ContainsMiddle("Table type '", kind, "' of table '" + name + "' is not supported");
    assert message == "Table type '" + kind + ("' of table '" + name + "' is not supported");
    ContainsMiddle("Table type '" + kind + "' of table '", name, "' is not supported");
    ConnectorError(Some(Unsupported), message, None)
  }

  /** What `getReadTable` goes on to do */
  datatype ReadPlan =
    | MaterializeQuery(sql: string, expirationMinutes: Int32)  // materialize the query, return its table
    | ReadAsIs(table: TableInfo)                               // return the fetched table unchanged
    | TableNotFound                                            // return null
    | LookupFailed(error: Error)                               // the lookup itself threw; let it through
    | ReadRejected(error: Error)                               // throw

  /**
   * The decisions of `getReadTable`. A query is materialized only with views enabled; without
   * a query, the table is looked up, a failing lookup's error goes through, a missing table is
   * reported as such, tables and external tables are returned as fetched, views and
   * materialized views likewise but only with views enabled (their materialization is left to
   * the reader), and every other kind is rejected.
   */
  function PlanReadTable(options: ReadTableOptions, getTable: TableId -> Result<Option<TableInfo>, Error>): (p: ReadPlan)
    ensures options.query.Some? ==>
      (p.MaterializeQuery? <==> options.viewsEnabled) &&
      (p.MaterializeQuery? ==> p.sql == options.query.value
                               && p.expirationMinutes == options.expirationTimeInMinutes) &&
      (p.ReadRejected? ==> Some(p.error) == ValidateViewsEnabled(options))
    ensures p.LookupFailed? <==> options.query.None? && getTable(options.tableId).Failure?
    ensures p.LookupFailed? ==> p.error == getTable(options.tableId).error
    ensures p.TableNotFound? <==> options.query.None? && getTable(options.tableId) == Success(None)
    ensures p.ReadAsIs? <==>
      options.query.None? && Found(getTable(options.tableId)) &&
      (IsDirectlyReadable(getTable(options.tableId).value.value.kind) ||
       (IsViewKind(getTable(options.tableId).value.value.kind) && options.viewsEnabled))
    ensures p.ReadAsIs? ==> Success(Some(p.table)) == getTable(options.tableId)
    ensures p.MaterializeQuery? ==> options.query.Some?
    ensures options.query.None? && Found(getTable(options.tableId)) ==>
      var table := getTable(options.tableId).value.value;
      && (IsViewKind(table.kind) && !options.viewsEnabled ==> p == ReadRejected(ValidateViewsEnabled(options).value))
      && (table.kind.Other? ==> p == ReadRejected(UnsupportedKindError(table)))
    ensures p.ReadRejected? ==> p.error.ConnectorError? && p.error.code == Some(Unsupported)
  {
    match options.query
    case Some(sql) =>
      (match ValidateViewsEnabled(options)
       case Some(e) => ReadRejected(e)
       case None => MaterializeQuery(sql, options.expirationTimeInMinutes))
    case None =>
      match getTable(options.tableId)
      case Failure(e) => LookupFailed(e)
      case Success(None) => TableNotFound
      case Success(Some(table)) =>
        if IsDirectlyReadable(table.kind) then ReadAsIs(table)
        else if IsViewKind(table.kind) then
          (match ValidateViewsEnabled(options)
           case Some(e) => ReadRejected(e)
           case None => ReadAsIs(table))
        else ReadRejected(UnsupportedKindError(table))
  }

  /** A query request is decided before, and without, any table lookup. */
  lemma QueryPlanIgnoresLookup(options: ReadTableOptions, g1: TableId -> Result<Option<TableInfo>, Error>,
                               g2: TableId -> Result<Option<TableInfo>, Error>)
    requires options.query.Some?
    ensures PlanReadTable(options, g1) == PlanReadTable(options, g2)
  {
  }

  /** A table of an unhandled kind is rejected with a message naming the kind, dataset and table. */
  lemma OtherKindRejected(options: ReadTableOptions, getTable: TableId -> Result<Option<TableInfo>, Error>)
    requires options.query.None? && Found(getTable(options.tableId))
    requires getTable(options.tableId).value.value.kind.Other?
    ensures var table := getTable(options.tableId).value.value;
      var p := PlanReadTable(options, getTable);
      p.ReadRejected? && Contains(p.error.message, TypeName(table.kind))
      && Contains(p.error.message, table.id.dataset + "." + table.id.table)
  {
  }
}
