/**
 * The SQL text the client builds: SELECT statements over a column list and filters, the
 * COUNT(*) statement of size estimation, and the MERGE statement that overwrites a table
 * with the contents of a temporary one.
 */
module SqlTemplates {
  import opened Wrappers
  import opened Text
  import opened TextOrder
  import opened TableModel
  import opened Naming

  /** Reference form of several filters combined: `(f1) AND (f2) AND ... AND (fn)` */
  function Conjunction(filters: seq<string>): string
    requires |filters| >= 1
    decreases |filters|
  {
    if |filters| == 1 then "(" + filters[0] + ")"
    else "(" + filters[0] + ") AND " + Conjunction(filters[1..])
  }

  /** `Collectors.joining(") AND (", "(", ")")` builds exactly the conjunction, in input order. */
  lemma {:induction false} JoiningIsConjunction(filters: seq<string>)
    requires |filters| >= 1
    ensures Joining(filters, ") AND (", "(", ")") == Conjunction(filters)
    decreases |filters|
  {
    if |filters| > 1 {
      var f, rest := filters[0], filters[1..];
      JoiningIsConjunction(rest);
      calc {
        Joining(filters, ") AND (", "(", ")");
        "(" + (f + ") AND (" + Join(rest, ") AND (")) + ")";
        { assert ") AND (" == ") AND " + "("; }
        "(" + f + ") AND " + ("(" + Join(rest, ") AND (") + ")");
        Conjunction(filters);
      }
    }
  }

  /** `createWhereClause`: nothing without filters, otherwise their parenthesised conjunction */
  function WhereClause(filters: seq<string>): (r: Option<string>)
    ensures |filters| == 0 ==> r == None
    ensures |filters| > 0 ==> r == Some(Conjunction(filters))
  {
    if |filters| == 0 then None
    else
      JoiningIsConjunction(filters);
      Some(Joining(filters, ") AND (", "(", ")"))
  }

  /** Each column wrapped in backticks */
  function Quoted(columns: seq<string>): (r: seq<string>)
    ensures |r| == |columns|
    ensures forall i :: 0 <= i < |columns| ==> r[i] == "`" + columns[i] + "`"
  {
    seq(|columns|, i requires 0 <= i < |columns| => "`" + columns[i] + "`")
  }

  lemma {:induction false} JoinQuoted(columns: seq<string>)
    requires |columns| >= 1
    ensures Join(Quoted(columns), ",") == "`" + Join(columns, "`,`") + "`"
    decreases |columns|
  {
    if |columns| > 1 {
      var c, rest := columns[0], columns[1..];
      assert Quoted(columns)[1..] == Quoted(rest);
      JoinQuoted(rest);
      calc {
        Join(Quoted(columns), ",");
        "`" + c + "`" + "," + Join(Quoted(rest), ",");
        "`" + c + "`" + "," + ("`" + Join(rest, "`,`") + "`");
        { assert "`,`" == "`" + "," + "`"; }
        "`" + (c + "`,`" + Join(rest, "`,`")) + "`";
      }
    }
  }

  /**
   * The selection of the column-list `createSql`: `*` when no column is required, otherwise
   * the columns in order, each in backticks, separated by commas.
   */
  function ColumnList(columns: seq<string>): (r: string)
    ensures |columns| == 0 ==> r == "*"
    ensures |columns| > 0 ==> r == "`" + Join(columns, "`,`") + "`"
  {
    if |columns| == 0 then "*"
    else
      JoinQuoted(columns);
      Join(Quoted(columns), ",")
  }

  /** The beginning every SELECT shares: `SELECT <selection> FROM `<full name>`` */
  function SelectFrom(table: TableId, selection: string): string {
    "SELECT " + selection + " FROM `" + FullTableName(table) + "`"
  }

  /**
   * `createSql` with a preformatted selection: the WHERE keyword and the conjunction follow
   * only when there are filters; without filters the statement ends in a space.
   */
  function CreateSql(table: TableId, selection: string, filters: seq<string>): (r: string)
    ensures |filters| == 0 ==> r == SelectFrom(table, selection) + " "
    ensures |filters| > 0 ==> r == SelectFrom(table, selection) + " WHERE " + WhereClause(filters).value
  {
    var whereClause := match WhereClause(filters)
      case Some(clause) => "WHERE " + clause
      case None => "";
    "SELECT " + selection + " FROM `" + FullTableName(table) + "` " + whereClause
  }

  /** `createSql` with a column list */
  function CreateSqlForColumns(table: TableId, columns: seq<string>, filters: seq<string>): (r: string)
    ensures r == CreateSql(table, if |columns| == 0 then "*" else "`" + Join(columns, "`,`") + "`", filters)
  {
    CreateSql(table, ColumnList(columns), filters)
  }

  /**
   * The COUNT(*) statement of size estimation. Unlike `createSql` the filter is not
   * parenthesised, and without one the statement ends in a space.
   */
  function CountSql(id: TableId, filter: Option<string>): (r: string)
    ensures OccursAt(r, "`" + FullTableName(id) + "`", |"SELECT COUNT(*) from "|)
    ensures filter.None? ==> r == "SELECT COUNT(*) from `" + FullTableName(id) + "` "
    ensures filter.Some? ==> r == "SELECT COUNT(*) from `" + FullTableName(id) + "` WHERE " + filter.value
  {
    var whereClause := match filter
      case Some(f) => "WHERE " + f
      case None => "";
    var sql := "SELECT COUNT(*) from `" + FullTableName(id) + "` " + whereClause;
    OccursAfterPrefix("SELECT COUNT(*) from ", "`" + FullTableName(id) + "`", " " + whereClause);
    sql
  }

  /** A format string with two `%s` placeholders, given as the text around them */
  datatype Format2 = Format2(head: string, middle: string, tail: string)

  /** The MERGE statement that replaces a table's contents with those of another */
  const MergeFormat: Format2 := Format2(
    "MERGE `",
    "`" + "\n" + "USING (SELECT * FROM `",
    "`)" + "\n" + "ON FALSE" + "\n" + "WHEN NOT MATCHED THEN INSERT ROW" + "\n" + "WHEN NOT MATCHED BY SOURCE THEN DELETE")

  /** `sqlFromFormat`: the destination's full name fills the first placeholder, the temporary's the second */
  function SqlFromFormat(format: Format2, destination: TableId, temporary: TableId): (r: string)
    ensures OccursAt(r, FullTableName(destination), |format.head|)
    ensures OccursAt(r, FullTableName(temporary), |format.head| + |FullTableName(destination)| + |format.middle|)
  {
    var d, t := FullTableName(destination), FullTableName(temporary);
    OccursAfterPrefix(format.head, d, format.middle + t + format.tail);
    OccursAfterPrefix(format.head + d + format.middle, t, format.tail);
    assert format.head + d + format.middle + t + format.tail
        == format.head + d + (format.middle + t + format.tail);
    format.head + d + format.middle + t + format.tail
  }

  /**
   * The SQL text of `overwriteDestinationWithTemporary(temporary, destination)`: the
   * destination's name right after `MERGE ``, the temporary's right after the line break and
   * `USING (SELECT * FROM `` that follow it.
   */
  function OverwriteSql(temporary: TableId, destination: TableId): (r: string)
    ensures OccursAt(r, FullTableName(destination), |"MERGE `"|)
    ensures OccursAt(r, FullTableName(temporary), |"MERGE `" + FullTableName(destination) + "`\nUSING (SELECT * FROM `"|)
  {
    SqlFromFormat(MergeFormat, destination, temporary)
  }

  /** Regrouping of concatenations, on plain variables so that no literal is unfolded */
  lemma Regroup(h: string, d: string, bq: string, nl: string, us: string, t: string,
                cl: string, on: string, ins: string, del: string)
    ensures h + d + (bq + nl + us) + t + (cl + nl + on + nl + ins + nl + del)
         == "" + (h + d + bq) + (nl + (us + t + cl) + (nl + on + (nl + ins + (nl + del + ""))))
  {
    var lhs := h + d + (bq + nl + us) + t + (cl + nl + on + nl + ins + nl + del);
    assert lhs == h + d + bq + nl + us + t + cl + nl + on + nl + ins + nl + del;
  }

  /** The MERGE text, regrouped as each clause preceded by a line break */
  lemma MergeTextLayout(d: string, t: string)
    ensures var using := "USING (SELECT * FROM `" + t + "`)";
      var b3 := "\n" + "WHEN NOT MATCHED BY SOURCE THEN DELETE" + "";
      var b2 := "\n" + "WHEN NOT MATCHED THEN INSERT ROW" + b3;
      var b1 := "\n" + "ON FALSE" + b2;
      var b0 := "\n" + using + b1;
      MergeFormat.head + d + MergeFormat.middle + t + MergeFormat.tail == "" + ("MERGE `" + d + "`") + b0
  {
    Regroup("MERGE `", d, "`", "\n", "USING (SELECT * FROM `", t, "`)", "ON FALSE",
      "WHEN NOT MATCHED THEN INSERT ROW", "WHEN NOT MATCHED BY SOURCE THEN DELETE");
  }

  /**
   * The overwrite statement merges into the destination, reads all rows of the temporary
   * table, joins on FALSE so that nothing matches, inserts every source row and deletes
   * every destination row, with the clauses in that order.
   */
  lemma OverwriteSqlClauses(temporary: TableId, destination: TableId)
    ensures OccursAt(OverwriteSql(temporary, destination), "MERGE `" + FullTableName(destination) + "`", 0)
    ensures AppearInOrder(OverwriteSql(temporary, destination), [
      "MERGE `" + FullTableName(destination) + "`",
      "USING (SELECT * FROM `" + FullTableName(temporary) + "`)",
      "ON FALSE",
      "WHEN NOT MATCHED THEN INSERT ROW",
      "WHEN NOT MATCHED BY SOURCE THEN DELETE"])
  {
    var d, t := FullTableName(destination), FullTableName(temporary);
    var p0, p1, p2, p3, p4 := "MERGE `" + d + "`", "USING (SELECT * FROM `" + t + "`)",
      "ON FALSE", "WHEN NOT MATCHED THEN INSERT ROW", "WHEN NOT MATCHED BY SOURCE THEN DELETE";
    var b3 := "\n" + p4 + "";
    var b2 := "\n" + p3 + b3;
    var b1 := "\n" + p2 + b2;
    var b0 := "\n" + p1 + b1;
    var sql := OverwriteSql(temporary, destination);
    MergeTextLayout(d, t);
    assert sql == "" + p0 + b0;
    assert AppearInOrder("", []);
    AppearInOrderCons("\n", p4, "", []);
    AppearInOrderCons("\n", p3, b3, [p4]);
    AppearInOrderCons("\n", p2, b2, [p3, p4]);
    AppearInOrderCons("\n", p1, b1, [p2, p3, p4]);
    AppearInOrderCons("", p0, b0, [p1, p2, p3, p4]);
    assert [p0] + [p1, p2, p3, p4] == [p0, p1, p2, p3, p4];
    OccursAfterPrefix("", p0, b0);
  }
}
