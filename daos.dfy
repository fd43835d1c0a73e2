/** The two catalog queries `createOrUpdate` issues before it writes. */
module Daos {
  import opened Wrappers
  import opened Models

  /** The run table is keyed by each row's own UUID (the query selects by uuid). */
  ghost predicate RunsKeyedByUuid(runs: map<Uuid, ExtendedRunRow>)
  {
    forall u :: u in runs ==> runs[u].uuid == u
  }

  /** `RunDao.findRunByUuidAsRow`: the row of the run with that UUID, if any. */
  function FindRunByUuidAsRow(runs: map<Uuid, ExtendedRunRow>, runUuid: Uuid): (r: Option<ExtendedRunRow>)
    ensures r.Some? <==> runUuid in runs
    ensures r.Some? ==> r.value == runs[runUuid]
    ensures RunsKeyedByUuid(runs) && r.Some? ==> r.value.uuid == runUuid
  {
    if runUuid in runs then Some(runs[runUuid]) else None
  }

  /** `DatasetVersionDao.findOutputDatasetVersionsFor`: the versions currently
      recorded as outputs of the run, in stored order; none is not an error. */
  function FindOutputDatasetVersionsFor(outputs: map<Uuid, seq<ExtendedDatasetVersionRow>>, runUuid: Uuid)
    : seq<ExtendedDatasetVersionRow>
  {
    if runUuid in outputs then outputs[runUuid] else []
  }
}
