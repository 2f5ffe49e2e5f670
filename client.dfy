/**
 * The stateful part of the client: the materialization cache, keyed by query text with
 * get-or-load semantics, and the client operations that go through it.
 */
module Client {
  import opened Wrappers
  import opened JavaLang
  import opened TableModel
  import opened ReadTable
  import opened Placement
  import opened Jobs

  /** The cache's declared bounds: entries expire 15 minutes after being written, at most 1000 are kept */
  const ExpireAfterWriteMinutes: nat := 15
  const MaximumSize: nat := 1000

  /** One run of the loader: the query text it ran for and what it produced */
  datatype Load = Load(sql: string, outcome: Result<TableInfo, Error>)

  /** What `materializeTable` reports for a load's outcome: the table, or the wrapped failure */
  function Reported(sql: string, outcome: Result<TableInfo, Error>): Result<TableInfo, Error> {
    if outcome.Success? then outcome else Failure(MaterializationError(sql, outcome.error))
  }

  /** The cache's tables after a load of `sql`: a success is stored under it, a failure stores nothing */
  function Stored(entries: map<string, TableInfo>, sql: string, outcome: Result<TableInfo, Error>): map<string, TableInfo> {
    if outcome.Success? then entries[sql := outcome.value] else entries
  }

  /** The query-text-keyed cache of materialized tables */
  class MaterializationCache {
    var entries: map<string, TableInfo>
    /** Every run of the loader so far, in order */
    ghost var Loads: seq<Load>

    /**
     * Every stored table is what a load of its key produced, every successful load is still
     * stored, and no query text is ever loaded again after a successful load.
     */
    ghost predicate Valid()
      reads this
    {
      && (forall i :: 0 <= i < |Loads| && Loads[i].outcome.Success? ==>
            Loads[i].sql in entries && entries[Loads[i].sql] == Loads[i].outcome.value)
      && (forall i, j :: 0 <= i < j < |Loads| && Loads[i].sql == Loads[j].sql ==> Loads[i].outcome.Failure?)
      && (forall sql :: sql in entries ==>
            exists i :: 0 <= i < |Loads| && Loads[i] == Load(sql, Success(entries[sql])))
    }

    constructor ()
      ensures Valid() && entries == map[] && Loads == []
    {
      entries := map[];
      Loads := [];
    }

    /**
     * `Cache.get(key, loader)`: a hit returns the stored table and runs nothing; a miss runs
     * the loader once and stores its table under the key when it succeeds.
     */
    method GetOrLoad(sql: string, loader: () -> Result<TableInfo, Error>) returns (r: Result<TableInfo, Error>)
      requires Valid()
      modifies this
      ensures Valid()
      ensures old(sql in entries) ==> r == Success(old(entries[sql])) && unchanged(this)
      ensures old(sql !in entries) ==>
        r == loader() && Loads == old(Loads) + [Load(sql, r)] &&
        entries == (if r.Success? then old(entries)[sql := r.value] else old(entries))
    {
      if sql in entries {
        r := Success(entries[sql]);
        return;
      }
      r := loader();
      ghost var n, before, loadsBefore := |Loads|, entries, Loads;
      Loads := Loads + [Load(sql, r)];
      if r.Success? {
        entries := entries[sql := r.value];
      }
      forall k | k in entries
        ensures exists i :: 0 <= i < |Loads| && Loads[i] == Load(k, Success(entries[k]))
      {
        if k == sql {
          assert Loads[n] == Load(k, Success(entries[k]));
        } else {
          var i :| 0 <= i < n && loadsBefore[i] == Load(k, Success(before[k]));
          assert Loads[i] == loadsBefore[i];
        }
      }
    }
  }

  /** `BigQueryClient`: the remote service, the materialization location, and the shared cache */
  class BigQueryClient {
    const service: Service
    const config: MaterializationConfig
    const cache: MaterializationCache

    ghost predicate Valid()
      reads this, cache
    {
      cache.Valid()
    }

    constructor (service: Service, config: MaterializationConfig, cache: MaterializationCache)
      requires cache.Valid()
      ensures Valid()
      ensures this.service == service && this.config == config && this.cache == cache
    {
      this.service := service;
      this.config := config;
      this.cache := cache;
    }

    /**
     * `materializeTable`: the cached table for this query text if there is one; otherwise the
     * destination table built from the query, cached on success. A failed load leaves the
     * cache's tables as they were and is reported as a creation failure naming the SQL.
     */
    method MaterializeTable(sql: string, destination: TableId, minutes: Int32) returns (r: Result<TableInfo, Error>)
      requires Valid()
      modifies cache
      ensures Valid()
      ensures old(sql in cache.entries) ==> r == Success(old(cache.entries[sql])) && unchanged(cache)
      ensures r.Success? ==> sql in cache.entries && cache.entries[sql] == r.value
      ensures old(sql !in cache.entries) ==>
        var outcome := DestinationTableBuilder(sql, destination, minutes).CreateTableFromQuery(service);
        && cache.Loads == old(cache.Loads) + [Load(sql, outcome)]
        && cache.entries == Stored(old(cache.entries), sql, outcome)
        && r == Reported(sql, outcome)
    {
      var builder := DestinationTableBuilder(sql, destination, minutes);
      var remote := service;
      var loaded := cache.GetOrLoad(sql, () => builder.CreateTableFromQuery(remote));
      match loaded {
        case Success(table) => r := Success(table);
        case Failure(e) => r := Failure(MaterializationError(sql, e));
      }
    }

    /**
     * `materializeQueryToTable`: the destination is placed by the configuration alone, and is
     * chosen (failing without a configured dataset) before the cache is consulted.
     */
    method MaterializeQueryToTable(sql: string, minutes: Int32, uuid: string) returns (r: Result<TableInfo, Error>)
      requires Valid()
      modifies cache
      ensures Valid()
      ensures config.dataset.None? ==> r == Failure(NullPointer("dataset")) && unchanged(cache)
      ensures config.dataset.Some? && old(sql in cache.entries) ==>
        r == Success(old(cache.entries[sql])) && unchanged(cache)
      ensures r.Success? ==> sql in cache.entries && cache.entries[sql] == r.value
      ensures config.dataset.Some? && old(sql !in cache.entries) ==>
        var outcome := DestinationTableBuilder(sql, QueryDestination(config, uuid).value, minutes).CreateTableFromQuery(service);
        && cache.Loads == old(cache.Loads) + [Load(sql, outcome)]
        && cache.entries == Stored(old(cache.entries), sql, outcome)
        && r == Reported(sql, outcome)
    {
      var destination := QueryDestination(config, uuid);
      match destination {
        case Failure(e) => r := Failure(e);
        case Success(id) => r := MaterializeTable(sql, id, minutes);
      }
    }

    /** `materializeViewToTable`: the destination defaults to the view's own project and dataset. */
    method MaterializeViewToTable(sql: string, view: TableId, minutes: Int32, uuid: string) returns (r: Result<TableInfo, Error>)
      requires Valid()
      modifies cache
      ensures Valid()
      ensures old(sql in cache.entries) ==> r == Success(old(cache.entries[sql])) && unchanged(cache)
      ensures r.Success? ==> sql in cache.entries && cache.entries[sql] == r.value
      ensures old(sql !in cache.entries) ==>
        var outcome := DestinationTableBuilder(sql, ViewDestination(config, view, uuid).value, minutes).CreateTableFromQuery(service);
        && cache.Loads == old(cache.Loads) + [Load(sql, outcome)]
        && cache.entries == Stored(old(cache.entries), sql, outcome)
        && r == Reported(sql, outcome)
    {
      var destination := ViewDestination(config, view, uuid);
      r := MaterializeTable(sql, destination.value, minutes);
    }

    /**
     * `getReadTable`: carries out the read plan. Only a query request touches the cache, through
     * `materializeQueryToTable`; a table, external table or (with views enabled) view comes back
     * as fetched, a missing table as nothing, and a failed lookup or a rejection as the error.
     */
    method GetReadTable(options: ReadTableOptions, uuid: string) returns (r: Result<Option<TableInfo>, Error>)
      requires Valid()
      modifies cache
      ensures Valid()
      ensures var plan := PlanReadTable(options, service.getTable);
        && (plan.ReadAsIs? ==> r == Success(Some(plan.table)) && unchanged(cache))
        && (plan.TableNotFound? ==> r == Success(None) && unchanged(cache))
        && (plan.LookupFailed? ==> r == Failure(plan.error) && unchanged(cache))
        && (plan.ReadRejected? ==> r == Failure(plan.error) && unchanged(cache))
      ensures options.query.Some? && options.viewsEnabled && config.dataset.None? ==>
        r == Failure(NullPointer("dataset")) && unchanged(cache)
      ensures options.query.Some? && options.viewsEnabled && config.dataset.Some? ==>
        (old(options.query.value in cache.entries) ==>
           r == Success(Some(old(cache.entries[options.query.value]))) && unchanged(cache))
      ensures options.query.Some? && options.viewsEnabled && config.dataset.Some? ==>
        var sql := options.query.value;
        var outcome := DestinationTableBuilder(sql, QueryDestination(config, uuid).value, options.expirationTimeInMinutes)
          .CreateTableFromQuery(service);
        old(sql !in cache.entries) ==>
          && cache.Loads == old(cache.Loads) + [Load(sql, outcome)]
          && cache.entries == Stored(old(cache.entries), sql, outcome)
          && r == (if outcome.Success? then Success(Some(outcome.value)) else Failure(Reported(sql, outcome).error))
      ensures options.query.Some? && options.viewsEnabled ==>
        (r.Success? ==> r.value.Some? && options.query.value in cache.entries
                        && cache.entries[options.query.value] == r.value.value)
    {
      match PlanReadTable(options, service.getTable) {
        case MaterializeQuery(sql, minutes) =>
          var table := MaterializeQueryToTable(sql, minutes, uuid);
          match table {
            case Success(t) => r := Success(Some(t));
            case Failure(e) => r := Failure(e);
          }
        case ReadAsIs(table) => r := Success(Some(table));
        case TableNotFound => r := Success(None);
        case LookupFailed(e) => r := Failure(e);
        case ReadRejected(e) => r := Failure(e);
      }
    }
  }
}
