/**
 * Where the client puts the tables it generates and how long they live: the temporary table
 * of an overwrite and the destination table of a materialization, each placed in the
 * configured materialization project and dataset when set, otherwise next to the table they
 * come from.
 */
module Placement {
  import opened Wrappers
  import opened JavaLang
  import opened Text
  import opened TableModel
  import opened Naming

  /** The client's optional materialization project and dataset */
  datatype MaterializationConfig = MaterializationConfig(project: Option<string>, dataset: Option<string>)

  /** `createTable`: a plain table with no expiration */
  function NewTableInfo(id: TableId): (r: TableInfo)
    ensures r.id == id && r.kind == Table && r.expirationTime.None?
  {
    TableInfo(id, Table, None, None, None)
  }

  /** The temporary table's name: the destination's name followed by the `System.nanoTime()` reading */
  function TempTableName(destination: TableId, nanoTime: Long): (r: string)
    ensures |r| > |destination.table| && r[..|destination.table|] == destination.table
    ensures r[|destination.table|..] == LongToString(nanoTime)
  {
    destination.table + LongToString(nanoTime)
  }

  /**
   * The id `createTempTable` builds: the configured materialization project and dataset win
   * over the destination's own; it is a two-part id exactly when neither gives a project.
   */
  function TempTableId(config: MaterializationConfig, destination: TableId, nanoTime: Long): (r: TableId)
    ensures config.project.Some? ==> r.project == config.project
    ensures config.project.None? ==> r.project == destination.project
    ensures config.dataset.Some? ==> r.dataset == config.dataset.value
    ensures config.dataset.None? ==> r.dataset == destination.dataset
    ensures r.table == TempTableName(destination, nanoTime)
  {
    var project := config.project.OrElse(destination.project);
    var dataset := config.dataset.GetOr(destination.dataset);
    match project
    case None => TableId(None, dataset, TempTableName(destination, nanoTime))
    case Some(p) => TableId(Some(p), dataset, TempTableName(destination, nanoTime))
  }

  /** Two temporary tables for one destination made at different `nanoTime` readings never collide. */
  lemma TempTableIdsDistinct(config: MaterializationConfig, destination: TableId, t1: Long, t2: Long)
    requires t1 != t2
    ensures TempTableId(config, destination, t1) != TempTableId(config, destination, t2)
  {
    var n := |destination.table|;
    var a, b := TempTableName(destination, t1), TempTableName(destination, t2);
    LongToStringInjective(t1, t2);
    assert a[n..] == LongToString(t1) && b[n..] == LongToString(t2);
  }

  /**
   * Rendered with dots, the temporary table's name has two parts exactly when neither the
   * configuration nor the destination gives a project.
   */
  lemma TempTableNameParts(config: MaterializationConfig, destination: TableId, nanoTime: Long)
    requires config.project.Some? ==> '.' !in config.project.value
    requires destination.project.Some? ==> '.' !in destination.project.value
    requires config.dataset.Some? ==> '.' !in config.dataset.value
    requires '.' !in destination.dataset && '.' !in destination.table
    ensures var id := TempTableId(config, destination, nanoTime);
      |Split(FullTableName(id), '.')| == 2 <==> config.project.None? && destination.project.None?
  {
    var id := TempTableId(config, destination, nanoTime);
    var suffix := LongToString(nanoTime);
    assert forall i :: 0 <= i < |suffix| ==> suffix[i] != '.';
    assert id.table == destination.table + suffix;
    assert '.' !in id.table;
    FullTableNameRoundTrip(id);
  }

  /** `createTempTable`'s table: a plain table at the temporary id that expires one day after `now` */
  function TempTableInfo(config: MaterializationConfig, destination: TableId, nanoTime: Long, nowMillis: Long): (r: TableInfo)
    ensures r == NewTableInfo(TempTableId(config, destination, nanoTime)).(expirationTime := r.expirationTime)
    ensures MinLong <= nowMillis + DayMillis <= MaxLong ==> r.expirationTime == Some(nowMillis + DayMillis)
  {
    NewTableInfo(TempTableId(config, destination, nanoTime)).(expirationTime := Some(AddLong(nowMillis, DayMillis)))
  }

  /** The materialized table's name: `_bqc_` and the UUID text lower-cased with its hyphens removed */
  function MaterializedTableName(uuid: string): (r: string)
    ensures |r| >= 5 && r[..5] == "_bqc_"
    ensures r[5..] == RemoveChar(ToLowerAscii(uuid), '-')
    ensures '-' !in r[5..]
    ensures forall i :: 5 <= i < |r| ==> !('A' <= r[i] <= 'Z')
  {
    var lowered := ToLowerAscii(uuid);
    var suffix := RemoveChar(lowered, '-');
    assert forall c :: c in lowered ==> !('A' <= c <= 'Z');
    var r := "_bqc_" + suffix;
    assert r[5..] == suffix;
    assert forall i :: 5 <= i < |r| ==> r[i] == suffix[i - 5] && r[i] in suffix;
    r
  }

  /** A UUID text already in lower case and without hyphens is taken as it is. */
  lemma MaterializedTableNameOfPlainUuid(uuid: string)
    requires '-' !in uuid && forall i :: 0 <= i < |uuid| ==> !('A' <= uuid[i] <= 'Z')
    ensures MaterializedTableName(uuid) == "_bqc_" + uuid
  {
    assert ToLowerAscii(uuid) == uuid;
    RemoveCharIdentity(uuid, '-');
  }

  /** The hyphens of the UUID text are dropped wherever they stand: `a-b` gives the name of `ab`. */
  lemma MaterializedTableNameDropsHyphen(a: string, b: string)
    ensures MaterializedTableName(a + "-" + b) == MaterializedTableName(a + b)
  {
    var la, lb := ToLowerAscii(a), ToLowerAscii(b);
    assert ToLowerAscii(a + "-" + b) == la + "-" + lb;
    assert ToLowerAscii(a + b) == la + lb;
    RemoveCharConcat(la + "-", lb, '-');
    RemoveCharConcat(la, "-", '-');
    RemoveCharConcat(la, lb, '-');
  }

  /**
   * `createDestinationTable`: the configured materialization project and dataset win over the
   * reference values; two-part exactly when no project results. `TableId.of` refuses a null
   * dataset, so a missing dataset is a null dereference.
   */
  function DestinationTableId(config: MaterializationConfig, referenceProject: Option<string>,
                              referenceDataset: Option<string>, uuid: string): (r: Result<TableId, Error>)
    ensures r.Success? <==> config.dataset.Some? || referenceDataset.Some?
    ensures r.Success? ==> r.value.project == (if config.project.Some? then config.project else referenceProject)
    ensures r.Success? ==> r.value.dataset == (if config.dataset.Some? then config.dataset.value else referenceDataset.value)
    ensures r.Success? ==> r.value.table == MaterializedTableName(uuid)
    ensures r.Failure? ==> r.error == NullPointer("dataset")
  {
    var project := config.project.OrElse(referenceProject);
    var dataset := config.dataset.OrElse(referenceDataset);
    var name := MaterializedTableName(uuid);
    match dataset
    case None => Failure(NullPointer("dataset"))
    case Some(d) =>
      match project
      case None => Success(TableId(None, d, name))
      case Some(p) => Success(TableId(Some(p), d, name))
  }

  /** `materializeQueryToTable` has no reference location: without a configured dataset it fails. */
  function QueryDestination(config: MaterializationConfig, uuid: string): (r: Result<TableId, Error>)
    ensures r.Success? <==> config.dataset.Some?
    ensures r.Success? ==> r.value.project == config.project && r.value.dataset == config.dataset.value
    ensures r.Success? ==> r.value.table == MaterializedTableName(uuid)
    ensures r.Failure? ==> r.error == NullPointer("dataset")
  {
    DestinationTableId(config, None, None, uuid)
  }

  /** `materializeViewToTable` uses the view's project and dataset as the reference location. */
  function ViewDestination(config: MaterializationConfig, view: TableId, uuid: string): (r: Result<TableId, Error>)
    ensures r.Success?
    ensures r.value.project == (if config.project.Some? then config.project else view.project)
    ensures r.value.dataset == (if config.dataset.Some? then config.dataset.value else view.dataset)
    ensures r.value.table == MaterializedTableName(uuid)
  {
    DestinationTableId(config, view.project, Some(view.dataset), uuid)
  }

  /** The materialized table expires `minutes` after it was created (`creationTime + MINUTES.toMillis(minutes)`). */
  function MaterializedExpiry(creationTime: Long, minutes: Int32): (r: Long)
    ensures MinLong <= creationTime + minutes * MinuteMillis <= MaxLong ==> r == creationTime + minutes * MinuteMillis
  {
    MinutesToMillisOfIntIsExact(minutes);
    AddLong(creationTime, MinutesToMillis(minutes))
  }

  /** For any creation time within the next few million years, a positive window lies in the future. */
  lemma MaterializedExpiryAfterCreation(creationTime: Long, minutes: Int32)
    requires 0 <= creationTime <= 0x1000_0000_0000_0000 && minutes > 0
    ensures MaterializedExpiry(creationTime, minutes) == creationTime + minutes * MinuteMillis
    ensures MaterializedExpiry(creationTime, minutes) > creationTime
  {
  }
}
