/**
 * Size estimation: the stored row count of a plain table when no filter applies, a COUNT(*)
 * query for views, materialized views and filtered tables, and an argument error otherwise.
 */
module TableSize {
  import opened Wrappers
  import opened JavaLang
  import opened Text
  import opened TableModel
  import opened Naming
  import opened SqlTemplates
  import opened ReadTable

  /** How `calculateTableSize` obtains the size */
  datatype SizePlan =
    | StoredRowCount              // the table's own row count, no query
    | CountQuery(sql: string)     // run this COUNT(*) statement and take its first value
    | SizeRejected(error: Error)  // throw, without querying

  function UnsupportedSizeError(table: TableInfo): (e: Error)
    ensures e.IllegalArgument?
    ensures Contains(e.message, TypeName(table.kind)) && Contains(e.message, FullTableName(table.id))
  {
    var kind, name := TypeName(table.kind), FullTableName(table.id);
    ContainsMiddle("Unsupported table type ", kind, " for table " + name);
    assert "Unsupported table type " + kind + " for table " + name
        == "Unsupported table type " + kind + (" for table " + name);
    ContainsMiddle("Unsupported table type " + kind + " for table ", name, "");
    assert "Unsupported table type " + kind + " for table " + name
        == "Unsupported table type " + kind + " for table " + name + "";
    IllegalArgument("Unsupported table type " + kind + " for table " + name)
  }

  /**
   * The branching of `calculateTableSize`: the stored count exactly for an unfiltered plain
   * table, a COUNT(*) over the table's full name (with the filter, if any) exactly for views,
   * materialized views and filtered plain tables, and an argument error naming the kind and
   * the table for every other kind, EXTERNAL included.
   */
  function PlanTableSize(table: TableInfo, filter: Option<string>): (p: SizePlan)
    ensures p.StoredRowCount? <==> table.kind == Table && filter.None?
    ensures p.CountQuery? <==> IsViewKind(table.kind) || (table.kind == Table && filter.Some?)
    ensures p.CountQuery? ==> p.sql == CountSql(table.id, filter)
    ensures p.SizeRejected? ==> p.error.IllegalArgument? && Contains(p.error.message, TypeName(table.kind))
    ensures p.SizeRejected? ==> Contains(p.error.message, FullTableName(table.id))
  {
    if table.kind == Table && filter.None? then StoredRowCount
    else if table.kind == View || table.kind == MaterializedView || (table.kind == Table && filter.Some?) then
      CountQuery(CountSql(table.id, filter))
    else SizeRejected(UnsupportedSizeError(table))
  }

  /**
   * The first value of the first row, as `iterateAll().iterator().next().get(0)` reads it. Only
   * an interruption is caught and wrapped; a failure of the query itself goes through as it is.
   */
  function FirstScalar(outcome: QueryOutcome): (r: Result<Long, Error>)
    ensures outcome.QueryRows? && |outcome.firstColumn| > 0 ==> r == Success(outcome.firstColumn[0])
    ensures outcome.QueryRows? && |outcome.firstColumn| == 0 ==> r == Failure(NoSuchElement)
    ensures outcome.QueryInterrupted? ==> r.Failure? && r.error.ConnectorError? && r.error.cause == Some(Interruption)
    ensures outcome.QueryFailed? ==> r == Failure(outcome.error)
  {
    match outcome
    case QueryRows(column) => if |column| == 0 then Failure(NoSuchElement) else Success(column[0])
    case QueryFailed(e) => Failure(e)
    case QueryInterrupted =>
      Failure(ConnectorError(None, "Querying table size was interrupted on the client side", Some(Interruption)))
  }

  /**
   * `calculateTableSize(TableInfo, Optional<String>)`. The stored count is a `BigInteger` read
   * with `longValue()`, which keeps its low 64 bits; a missing count is a null dereference.
   */
  function CalculateTableSize(table: TableInfo, filter: Option<string>, query: string -> QueryOutcome): (r: Result<Long, Error>)
    ensures table.kind == Table && filter.None? ==>
      r == (if table.numRows.Some? then Success(WrapLong(table.numRows.value)) else Failure(NullPointer("numRows")))
    ensures PlanTableSize(table, filter).CountQuery? ==> r == FirstScalar(query(CountSql(table.id, filter)))
    ensures PlanTableSize(table, filter).SizeRejected? ==> r.Failure? && r.error.IllegalArgument?
  {
    match PlanTableSize(table, filter)
    case StoredRowCount =>
      (match table.numRows
       case Some(n) => Success(WrapLong(n))
       case None => Failure(NullPointer("numRows")))
    case CountQuery(sql) => FirstScalar(query(sql))
    case SizeRejected(e) => Failure(e)
  }

  /** An unfiltered plain table's size, and every rejection, are decided without querying. */
  lemma SizeWithoutQuery(table: TableInfo, filter: Option<string>, q1: string -> QueryOutcome, q2: string -> QueryOutcome)
    requires !PlanTableSize(table, filter).CountQuery?
    ensures CalculateTableSize(table, filter, q1) == CalculateTableSize(table, filter, q2)
  {
  }

  /** A plain table of 42 rows has size 42 without a filter; with one, its size is what the count query says. */
  lemma FortyTwoRows(id: TableId, f: string, query: string -> QueryOutcome)
    requires query(CountSql(id, Some(f))) == QueryRows([7])
    ensures CalculateTableSize(TableInfo(id, Table, Some(42), None, None), None, query) == Success(42)
    ensures CalculateTableSize(TableInfo(id, Table, Some(42), None, None), Some(f), query) == Success(7)
  {
  }

  /**
   * `calculateTableSize(TableId, Optional<String>)`: looks the table up first; a failing lookup's
   * error goes through, and a missing table is a null dereference.
   */
  function CalculateTableSizeOf(id: TableId, filter: Option<string>, service: Service): (r: Result<Long, Error>)
    ensures service.getTable(id).Failure? ==> r == Failure(service.getTable(id).error)
    ensures service.getTable(id) == Success(None) ==> r == Failure(NullPointer("table"))
    ensures Found(service.getTable(id)) ==> r == CalculateTableSize(service.getTable(id).value.value, filter, service.query)
  {
    match service.getTable(id)
    case Failure(e) => Failure(e)
    case Success(None) => Failure(NullPointer("table"))
    case Success(Some(table)) => CalculateTableSize(table, filter, service.query)
  }
}
