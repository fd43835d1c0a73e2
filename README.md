# Marquez legacy dataset upsert, modelled in Dafny

This project models `DatasetService.createOrUpdate` from Marquez, the
lineage catalog. It is the deprecated entry point that creates or updates a
dataset's metadata. When the metadata names a run, the service does four
things in order:

1. It looks up the run's row.
2. It reads the run's current output dataset versions.
3. It hands one `JobOutputUpdate` event to the run service, which passes it to
   its listeners.
4. Only then does it upsert the dataset and return it.

Without a run id, steps 1–3 are skipped.

Layout:

- `wrappers.dfy` (`Wrappers`): `Option` and `Result`.
- `models.dfy` (`Models`): typed names, `DatasetMeta`, catalog rows, `Dataset`
  (the stream variant follows the client's `Stream` model), `JobOutputUpdate`,
  the abstract `Catalog` and the `RunNotFound` failure.
- `daos.dfy` (`Daos`): the two lookups the call makes before it writes.
- `trace.dfy` (`Trace`): the ordered effects of a series of calls, as a
  sequence of `Notify(event)` and `Upsert(namespace, name, meta)` ops. A trace
  is well formed when it splits into call blocks: `[Upsert]` for a call
  without a run id, and `[Notify(e), Upsert]`, with the same run id, for a
  call with one. The lemmas here prove, by induction, what this means for the
  whole series.
- `scenarios.dfy` (`Scenarios`): a client on a concrete catalog. A run with two
  output versions gets one event carrying both before the dataset is written.
  An unknown run fails and leaves the trace alone. A request without a run id
  adds only its upsert.
- `dataset_service.dfy` (`Service`): the class `DatasetService`. Its fields are
  the catalog state (`runs`, `outputs`, `datasets`) and the ghost `trace`.
  Two function-valued constants stand for collaborators whose code is not part
  of this model: `buildRunOutputs` and `upsertDatasetMeta`. The upsert returns
  new `datasets` and new `outputs` tables, so it may change the outputs of the
  run. That makes "the event's outputs were read before the write" a real
  claim.

Collaborators and the environment, as parameters:

- `RunService.buildRunOutputs` and the inherited `upsertDatasetMeta` are
  constructor parameters of `DatasetService`. They are arbitrary total
  functions, except that the upsert's result has no run table: it writes only
  the dataset and output tables.
- The database is the three maps. The object invariant `Valid()` says each
  run row is stored under its own UUID, which is what a lookup by `uuid`
  means. That invariant is what makes the event's run id equal to the
  request's run id, since the source builds it from the row (`:80`).
- `RunService.notify` is modelled by its effect on the trace: exactly one
  `Notify` op.

The code has no `RunNotFound` exception: `Optional.get()` at
`DatasetService.java:74` throws `NoSuchElementException`. The model returns
`Failure(RunNotFound(uuid))` and changes neither the state nor the trace.

## Model

| member | source | states |
|---|---|---|
| `Daos.FindRunByUuidAsRow` | api/src/main/java/marquez/service/DatasetService.java:74 | a row is found exactly when the run exists; it is that run's row; with runs keyed by UUID its `uuid` is the requested one |
| `Trace.AppendCall` | api/src/main/java/marquez/service/DatasetService.java:72-92 | appending one call's block (`[Upsert]` without a run id, `[Notify(e), Upsert]` with the same run id) keeps a trace well formed |
| `Trace.CompleteCall` | api/src/main/java/marquez/service/DatasetService.java:78-92 | an upsert keeps a trace well formed when it stands alone without a run id, or when it follows the notification for its run on an otherwise well-formed trace |
| `Trace.NotifyIsFollowedByItsUpsert` | api/src/main/java/marquez/service/DatasetService.java:78-92 | in a well-formed trace every notification is immediately followed by an upsert whose metadata names the notified run |
| `Trace.UpsertIsPrecededByItsNotify` | api/src/main/java/marquez/service/DatasetService.java:72-92 | in a well-formed trace every upsert attributed to a run comes right after the notification for that run; no such write happens without its notification |
| `Trace.UnattributedUpsertHasNoNotify` | api/src/main/java/marquez/service/DatasetService.java:72-92 | an upsert without a run id has no notification immediately before it; the op before it, if any, is the previous call's upsert |
| `Trace.NotificationsMatchAttributedUpserts` | api/src/main/java/marquez/service/DatasetService.java:72-85 | over a whole well-formed trace, the number of notifications equals the number of upserts that carry a run id |
| `Service.DatasetService.constructor` | api/src/main/java/marquez/service/DatasetService.java:56-61 | the service starts on the given catalog and collaborators with an empty trace, and its invariant holds |
| `Service.DatasetService.NotifyRunService` | api/src/main/java/marquez/service/DatasetService.java:78-84 | handing an event to the run service, with the trace complete, appends exactly that one `Notify` and changes nothing else; the trace then awaits the upsert for that run |
| `Service.DatasetService.UpsertDataset` | api/src/main/java/marquez/service/DatasetService.java:92 | the upsert installs the collaborator's new datasets and outputs, returns its dataset for the same three arguments, and appends one `Upsert`; runs are unchanged; a write with a run id is admitted only right after that run's notification, and the trace invariant holds afterwards |
| `Service.DatasetService.CreateOrUpdate` | api/src/main/java/marquez/service/DatasetService.java:68-93 | without a run id: only the upsert, and the trace gains `[Upsert]`. Unknown run: `RunNotFound`, catalog and trace unchanged. Known run: the trace gains `[Notify(e), Upsert]`; `e` carries the request's run id, no job version, and the row's job and namespace names; its outputs are `buildRunOutputs` of the run's output versions as stored before the upsert, in stored order, and of `[]` (not an error) when the run has none, whatever the upsert then writes to the outputs; the result is the upsert's dataset. The trace invariant and run table are preserved |

## Left out

- The Prometheus counters `datasets` and `versions` (`DatasetService.java:37-50`): global metric registries. `createOrUpdate` does not touch them.
- The log statement (`DatasetService.java:86-90`): it has no effect on state.
- The `@NonNull` checks (`DatasetService.java:69-71`): Dafny's datatype parameters cannot be null, so the rejected-null path has no counterpart.
- The bodies of `RunService.buildRunOutputs` and of the delegated `upsertDatasetMeta` are not part of this model. They are arbitrary functions here. The DAOs' SQL is replaced by map lookups.
- `RunService.notify`'s dispatch to listeners and its failure handling are not part of this model. Only the one call to it is recorded.
- Exceptions thrown by the storage layer or by the upsert: the collaborators are total functions here. So the model does not cover a notification that was sent just before an upsert failed.
- UpsertDataset: the upsert is assumed never to write the run table, because its result type holds only datasets, outputs and the returned dataset. The body of `upsertDatasetMeta` is not part of this model, so `runs == old(runs)` in `CreateOrUpdate` rests on that assumption.
- The trace invariant covers writes made through `createOrUpdate` only. `DatasetService` extends `DelegatingDaos.DelegatingDatasetDao` (`DatasetService.java:36`), so its inherited public `upsertDatasetMeta` can write a dataset with a run id and send no notification; the model's `UpsertDataset` admits such a write only right after the run's notification, so that direct path is not modelled.
- Concurrency, cancellation and locking: nothing in the modelled code provides them.
- The HTTP client (`marquez_client/marquez.py`) and packaging metadata (`integrations/airflow/setup.py`): I/O and build plumbing. The client's `Stream` model appears only as the `StreamDataset` variant.
