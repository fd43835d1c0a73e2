/** `DatasetService`: the legacy create-or-update entry point for dataset
    metadata. When the metadata names a run, the service resolves the run,
    reads its current outputs, hands one `JobOutputUpdate` to the run service
    and only then writes the dataset. */
module Service {
  import opened Wrappers
  import opened Models
  import opened Daos
  import opened Trace

  class DatasetService {
    // catalog state
    var runs: map<Uuid, ExtendedRunRow>
    var outputs: map<Uuid, seq<ExtendedDatasetVersionRow>>
    var datasets: map<DatasetKey, Dataset>

    // the effects on collaborators, in order
    ghost var trace: seq<Op>

    // collaborators whose bodies are not part of this model
    const buildRunOutputs: seq<ExtendedDatasetVersionRow> -> seq<RunOutput>
    const upsertDatasetMeta: (Catalog, NamespaceName, DatasetName, DatasetMeta) -> Written

    ghost predicate Valid()
      reads this
    {
      RunsKeyedByUuid(runs) && WellFormed(trace)
    }

    function Snapshot(): (c: Catalog)
      reads this
    {
      Catalog(runs, outputs, datasets)
    }

    constructor (
      runs0: map<Uuid, ExtendedRunRow>,
      outputs0: map<Uuid, seq<ExtendedDatasetVersionRow>>,
      datasets0: map<DatasetKey, Dataset>,
      buildRunOutputs: seq<ExtendedDatasetVersionRow> -> seq<RunOutput>,
      upsertDatasetMeta: (Catalog, NamespaceName, DatasetName, DatasetMeta) -> Written)
      requires RunsKeyedByUuid(runs0)
      ensures Valid() && trace == []
      ensures Snapshot() == Catalog(runs0, outputs0, datasets0)
      ensures this.buildRunOutputs == buildRunOutputs && this.upsertDatasetMeta == upsertDatasetMeta
    {
      runs, outputs, datasets := runs0, outputs0, datasets0;
      this.buildRunOutputs := buildRunOutputs;
      this.upsertDatasetMeta := upsertDatasetMeta;
      trace := [];
    }

    /** Hands the event to the run service, which dispatches it to its listeners.
        A call made with the trace complete leaves it awaiting one upsert. */
    method NotifyRunService(event: JobOutputUpdate)
      requires Valid()
      modifies this`trace
      ensures trace == old(trace) + [Op.Notify(event)]
      ensures AwaitsUpsert(event.runId)
    {
      trace := trace + [Op.Notify(event)];
      assert trace[..|trace| - 1] == old(trace);
    }

    /** The trace is well formed except for one trailing notification for
        `runId`, whose upsert has not happened yet. */
    ghost predicate AwaitsUpsert(runId: RunId)
      reads this
    {
      && RunsKeyedByUuid(runs)
      && |trace| >= 1 && trace[|trace| - 1].Notify? && trace[|trace| - 1].event.runId == runId
      && WellFormed(trace[..|trace| - 1])
    }

    method CreateOrUpdate(namespaceName: NamespaceName, datasetName: DatasetName, datasetMeta: DatasetMeta)
      returns (r: Result<Dataset, ServiceError>)
      requires Valid()
      modifies this
      ensures Valid()
      ensures runs == old(runs)
      // no run id: the only effect is the upsert
      ensures datasetMeta.runId.None? ==>
        var w := upsertDatasetMeta(old(Snapshot()), namespaceName, datasetName, datasetMeta);
        && r == Success(w.dataset)
        && datasets == w.datasets && outputs == w.outputs
        && trace == old(trace) + [Upsert(namespaceName, datasetName, datasetMeta)]
      // unknown run: the call fails at the lookup, before any notification or write
      ensures datasetMeta.runId.Some? && datasetMeta.runId.value.value !in old(runs) ==>
        && r == Failure(RunNotFound(datasetMeta.runId.value.value))
        && datasets == old(datasets) && outputs == old(outputs)
        && trace == old(trace)
      // known run: one event built from the run row and the outputs before the
      // write, then the upsert
      ensures datasetMeta.runId.Some? && datasetMeta.runId.value.value in old(runs) ==>
        var runUuid := datasetMeta.runId.value.value;
        var row := old(runs)[runUuid];
        var w := upsertDatasetMeta(old(Snapshot()), namespaceName, datasetName, datasetMeta);
        && r == Success(w.dataset)
        && datasets == w.datasets && outputs == w.outputs
        && |trace| == |old(trace)| + 2
        && trace[..|old(trace)|] == old(trace)
        && trace[|old(trace)|].Notify?
        && trace[|old(trace)| + 1] == Upsert(namespaceName, datasetName, datasetMeta)
        && var e := trace[|old(trace)|].event;
           && e.runId == datasetMeta.runId.value
           && e.jobVersionId == None
           && e.jobName == JobName(row.jobName)
           && e.namespaceName == NamespaceName(row.namespaceName)
           && e.outputs == buildRunOutputs(FindOutputDatasetVersionsFor(old(outputs), runUuid))
           && (runUuid in old(outputs) ==> e.outputs == buildRunOutputs(old(outputs)[runUuid]))
           && (runUuid !in old(outputs) ==> e.outputs == buildRunOutputs([]))
    {
      if datasetMeta.runId.Some? {
        var runUuid := datasetMeta.runId.value.value;
        var found := FindRunByUuidAsRow(runs, runUuid);
        if found.None? {
          // Optional.get() on an absent row throws here
          return Failure(RunNotFound(runUuid));
        }
        var runRow := found.value;
        var rows := FindOutputDatasetVersionsFor(outputs, runUuid);
        var event := JobOutputUpdate(
          RunId(runRow.uuid),
          None,
          JobName(runRow.jobName),
          NamespaceName(runRow.namespaceName),
          buildRunOutputs(rows));
        NotifyRunService(event);
        assert event.runId == datasetMeta.runId.value;
        var d := UpsertDataset(namespaceName, datasetName, datasetMeta);
        r := Success(d);
        assert trace == old(trace) + [Op.Notify(event), Op.Upsert(namespaceName, datasetName, datasetMeta)];
      } else {
        var d := UpsertDataset(namespaceName, datasetName, datasetMeta);
        r := Success(d);
      }
    }

    /** `upsertDatasetMeta`: writes the dataset back and returns it. An
        attributed write must come right after the notification for its run. */
    method UpsertDataset(namespaceName: NamespaceName, datasetName: DatasetName, datasetMeta: DatasetMeta)
      returns (d: Dataset)
      requires datasetMeta.runId.None? ==> Valid()
      requires datasetMeta.runId.Some? ==> AwaitsUpsert(datasetMeta.runId.value)
      modifies this`datasets, this`outputs, this`trace
      ensures Valid()
      ensures var w := upsertDatasetMeta(old(Snapshot()), namespaceName, datasetName, datasetMeta);
        && d == w.dataset
        && datasets == w.datasets && outputs == w.outputs
      ensures trace == old(trace) + [Op.Upsert(namespaceName, datasetName, datasetMeta)]
    {
      var written := upsertDatasetMeta(Snapshot(), namespaceName, datasetName, datasetMeta);
      datasets, outputs := written.datasets, written.outputs;
      var op := Op.Upsert(namespaceName, datasetName, datasetMeta);
      CompleteCall(trace, op);
      trace := trace + [op];
      d := written.dataset;
    }
  }
}
