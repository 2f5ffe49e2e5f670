/**
 * How the client renders table identities: the dotted name used inside SQL, the resource
 * path handed to the storage read/write interface, and the dataset a table lives in.
 */
module Naming {
  import opened Wrappers
  import opened Text
  import opened TableModel

  /**
   * `fullTableName`: `project.dataset.table`, or `dataset.table` without a project; no escaping.
   * The name leads with the project and a dot when there is one, else with the dataset and a
   * dot, and it ends with a dot and the table.
   */
  function FullTableName(id: TableId): (r: string)
    ensures id.project.Some? ==> OccursAt(r, id.project.value + ".", 0)
    ensures id.project.None? ==> OccursAt(r, id.dataset + ".", 0)
    ensures |r| >= |id.table| + 1 && OccursAt(r, "." + id.table, |r| - |id.table| - 1)
  {
    match id.project
    case None => id.dataset + "." + id.table
    case Some(p) => p + "." + id.dataset + "." + id.table
  }

  /** The components a full name is made of, in order */
  function NameParts(id: TableId): (parts: seq<string>)
    ensures |parts| == (if id.project.Some? then 3 else 2)
  {
    match id.project
    case None => [id.dataset, id.table]
    case Some(p) => [p, id.dataset, id.table]
  }

  /** The full name is the dot-join of the parts, with no escaping of any part. */
  lemma FullTableNameIsDotJoin(id: TableId)
    ensures FullTableName(id) == Join(NameParts(id), ".")
  {
    var parts := NameParts(id);
    if id.project.Some? {
      var pr, d, t := id.project.value, id.dataset, id.table;
      assert parts[1..][1..] == [t];
      assert parts[1..] == [d, t];
      assert Join(parts[1..], ".") == d + "." + t;
      assert pr + "." + d + "." + t == pr + "." + (d + "." + t);
    } else {
      assert parts[1..] == [id.table];
    }
  }

  /**
   * Reading a full name back: when no component contains a dot, splitting the name on dots
   * gives back exactly its three parts (project present) or two parts (no project).
   */
  lemma FullTableNameRoundTrip(id: TableId)
    requires id.project.Some? ==> '.' !in id.project.value
    requires '.' !in id.dataset && '.' !in id.table
    ensures Split(FullTableName(id), '.') == NameParts(id)
    ensures |Split(FullTableName(id), '.')| == 3 <==> id.project.Some?
  {
    FullTableNameIsDotJoin(id);
    SplitJoin(NameParts(id), '.');
  }

  /** Without escaping, a dot inside a dataset name makes a two-part id look like a three-part one. */
  lemma FullTableNameAmbiguousWithDots()
    ensures FullTableName(TableId(None, "p.d", "t")) == FullTableName(TableId(Some("p"), "d", "t"))
  {
  }

  /** What `String.format("%s", project)` prints: the project, or `null` when there is none */
  function ProjectText(project: Option<string>): string {
    match project
    case Some(p) => p
    case None => "null"
  }

  /**
   * `createTablePathForBigQueryStorage`: `projects/P/datasets/D/tables/T`, so the path leads
   * with the `projects/` keyword and ends with the table after the `/tables/` keyword.
   */
  function StoragePath(id: TableId): (r: string)
    ensures |r| >= |id.table| + 9 && r[..9] == "projects/"
    ensures r[|r| - |id.table|..] == id.table
  {
    "projects/" + ProjectText(id.project) + "/datasets/" + id.dataset + "/tables/" + id.table
  }

  /** The storage path regrouped as each keyword or field followed by a slash and the rest */
  lemma StoragePathLayout(id: TableId)
    ensures var p, d, t := ProjectText(id.project), id.dataset, id.table;
      StoragePath(id) == "projects" + "/" + (p + "/" + ("datasets" + "/" + (d + "/" + ("tables" + "/" + t))))
  {
  }

  /**
   * Reading a storage path back: when no component contains a slash, splitting on slashes
   * yields the three keywords interleaved with project, dataset and table, in that order.
   */
  lemma StoragePathRoundTrip(id: TableId)
    requires '/' !in ProjectText(id.project) && '/' !in id.dataset && '/' !in id.table
    ensures Split(StoragePath(id), '/') ==
      ["projects", ProjectText(id.project), "datasets", id.dataset, "tables", id.table]
  {
    var p, d, t := ProjectText(id.project), id.dataset, id.table;
    StoragePathLayout(id);
    SplitWithoutSeparator(t, '/');
    SplitAfterField("tables", '/', t);
    SplitAfterField(d, '/', "tables" + "/" + t);
    SplitAfterField("datasets", '/', d + "/" + ("tables" + "/" + t));
    SplitAfterField(p, '/', "datasets" + "/" + (d + "/" + ("tables" + "/" + t)));
    SplitAfterField("projects", '/', p + "/" + ("datasets" + "/" + (d + "/" + ("tables" + "/" + t))));
  }

  /** A missing project prints as the literal `null`, indistinguishable from a project named so. */
  lemma StoragePathOfMissingProject(dataset: string, table: string)
    ensures StoragePath(TableId(None, dataset, table)) == StoragePath(TableId(Some("null"), dataset, table))
  {
  }

  /**
   * `toDatasetId`: the dataset a table belongs to. The two-argument `DatasetId.of` refuses a
   * null project, so a two-part id is a null dereference.
   */
  function ToDatasetId(id: TableId): (r: Result<DatasetId, Error>)
    ensures r.Success? <==> id.project.Some?
    ensures r.Success? ==> r.value.project == id.project && r.value.dataset == id.dataset
    ensures r.Failure? ==> r.error == NullPointer("project")
  {
    match id.project
    case None => Failure(NullPointer("project"))
    case Some(p) => Success(DatasetId(Some(p), id.dataset))
  }
}
