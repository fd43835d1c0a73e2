/** A client of `DatasetService`: what a caller can conclude from the
    contracts alone, on a concrete catalog and arbitrary collaborators. */
module Scenarios {
  import opened Wrappers
  import opened Models
  import opened Trace
  import opened Service

  /** `warehouse.orders` is upserted for run R1, which has produced versions of
      `warehouse.customers` and `warehouse.orders`; then a request names an
      unknown run. */
  method OrdersUpsertedForRun(
    buildRunOutputs: seq<ExtendedDatasetVersionRow> -> seq<RunOutput>,
    upsertDatasetMeta: (Catalog, NamespaceName, DatasetName, DatasetMeta) -> Written)
  {
    var r1 := Uuid(1);
    var run := ExtendedRunRow(r1, "load_orders", "warehouse");
    var v1 := ExtendedDatasetVersionRow(Uuid(10), "warehouse", "customers", Uuid(11), Some(r1));
    var v2 := ExtendedDatasetVersionRow(Uuid(20), "warehouse", "orders", Uuid(21), Some(r1));
    var before := Catalog(map[r1 := run], map[r1 := [v1, v2]], map[]);
    var service := new DatasetService(before.runs, before.outputs, before.datasets,
                                      buildRunOutputs, upsertDatasetMeta);

    var ns, orders := NamespaceName("warehouse"), DatasetName("orders");
    var meta := DatasetMeta(DbTable, "public.orders", "analytics_db", None, Some(RunId(r1)));
    var r := service.CreateOrUpdate(ns, orders, meta);
    assert |service.trace| == 2 && service.trace[0].Notify?;
    var e := service.trace[0].event;
    assert e == JobOutputUpdate(RunId(r1), None, JobName("load_orders"), ns, buildRunOutputs([v1, v2]));
    assert service.trace[1] == Upsert(ns, orders, meta);
    assert r == Success(upsertDatasetMeta(before, ns, orders, meta).dataset);

    var unknown := meta.(runId := Some(RunId(Uuid(2))));
    var trace1 := service.trace;
    var r' := service.CreateOrUpdate(ns, orders, unknown);
    assert r' == Failure(RunNotFound(Uuid(2)));
    assert service.trace == trace1;

    var plain := meta.(runId := None);
    var r'' := service.CreateOrUpdate(ns, orders, plain);
    assert service.trace == trace1 + [Upsert(ns, orders, plain)];
  }
}
