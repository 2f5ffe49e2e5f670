/** `listTables`: the tables of a dataset, keeping in order those whose kind is allowed. */
module Listing {
  import opened TableModel

  /** The stream filter of `listTables` */
  function KeepKinds(tables: seq<TableInfo>, allowed: set<TableType>): (r: seq<TableInfo>)
    ensures |r| <= |tables|
    ensures forall i :: 0 <= i < |r| ==> r[i].kind in allowed
    ensures forall t :: t in r <==> t in tables && t.kind in allowed
    decreases |tables|
  {
    if |tables| == 0 then []
    else if tables[0].kind in allowed then [tables[0]] + KeepKinds(tables[1..], allowed)
    else KeepKinds(tables[1..], allowed)
  }

  /** Filtering distributes over concatenation: the kept tables stay in their listed order. */
  lemma {:induction false} KeepKindsConcat(a: seq<TableInfo>, b: seq<TableInfo>, allowed: set<TableType>)
    ensures KeepKinds(a + b, allowed) == KeepKinds(a, allowed) + KeepKinds(b, allowed)
    decreases |a|
  {
    if |a| == 0 {
      assert a + b == b;
    } else {
      assert (a + b)[1..] == a[1..] + b;
      KeepKindsConcat(a[1..], b, allowed);
    }
  }

  /** Tables of allowed kinds are kept whole: a listing already filtered is left as it is. */
  lemma {:induction false} KeepKindsOfAllowed(tables: seq<TableInfo>, allowed: set<TableType>)
    requires forall i :: 0 <= i < |tables| ==> tables[i].kind in allowed
    ensures KeepKinds(tables, allowed) == tables
    decreases |tables|
  {
    if |tables| > 0 {
      KeepKindsOfAllowed(tables[1..], allowed);
      assert [tables[0]] + tables[1..] == tables;
    }
  }

  /** `listTables(datasetId, types...)`: the service's listing of the dataset, filtered by the given kinds */
  function ListTables(service: Service, dataset: DatasetId, types: seq<TableType>): (r: seq<TableInfo>)
    ensures forall t :: t in r <==> t in service.listTables(dataset) && t.kind in types
  {
    KeepKinds(service.listTables(dataset), set t | t in types)
  }
}
