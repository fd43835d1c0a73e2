/** The value types that `DatasetService.createOrUpdate` consumes and produces:
    typed names, the dataset metadata of a request, the catalog rows it reads,
    the dataset it returns and the `JobOutputUpdate` event it publishes. */
module Models {
  import opened Wrappers

  /** A 128-bit UUID; only compared for equality. */
  datatype Uuid = Uuid(bits: bv128)

  datatype NamespaceName = NamespaceName(value: string)
  datatype DatasetName = DatasetName(value: string)
  datatype JobName = JobName(value: string)
  datatype RunId = RunId(value: Uuid)

  /** A dataset's identity within the catalog. */
  datatype DatasetKey = DatasetKey(namespace: NamespaceName, name: DatasetName)

  datatype DatasetType = DbTable | Stream

  /** The request body of the legacy upsert; `runId` attributes the change to a run. */
  datatype DatasetMeta = DatasetMeta(
    datasetType: DatasetType,
    physicalName: string,
    sourceName: string,
    description: Option<string>,
    runId: Option<RunId>)

  /** A catalogued dataset; a stream additionally carries its schema location. */
  datatype Dataset =
    | DbTableDataset(key: DatasetKey, physicalName: string, createdAt: int, updatedAt: int,
                     sourceName: string, description: Option<string>)
    | StreamDataset(key: DatasetKey, physicalName: string, createdAt: int, updatedAt: int,
                    sourceName: string, description: Option<string>, schemaLocation: string)

  /** A run row joined with its job and namespace ("extended" run row). */
  datatype ExtendedRunRow = ExtendedRunRow(uuid: Uuid, jobName: string, namespaceName: string)

  /** A dataset version row joined with its dataset and namespace names. */
  datatype ExtendedDatasetVersionRow = ExtendedDatasetVersionRow(
    uuid: Uuid,
    namespaceName: string,
    datasetName: string,
    version: Uuid,
    runUuid: Option<Uuid>)

  datatype DatasetVersionId = DatasetVersionId(namespace: NamespaceName, name: DatasetName, version: Uuid)

  /** One output of a run, as the run service describes it to its listeners. */
  datatype RunOutput = RunOutput(datasetVersionId: DatasetVersionId)

  datatype JobVersionId = JobVersionId(namespace: NamespaceName, job: JobName, version: Uuid)

  /** The event handed to the run service's listeners: this run produced these outputs. */
  datatype JobOutputUpdate = JobOutputUpdate(
    runId: RunId,
    jobVersionId: Option<JobVersionId>,
    jobName: JobName,
    namespaceName: NamespaceName,
    outputs: seq<RunOutput>)

  /** The abstract catalog the service reads and writes. */
  datatype Catalog = Catalog(
    runs: map<Uuid, ExtendedRunRow>,
    outputs: map<Uuid, seq<ExtendedDatasetVersionRow>>,
    datasets: map<DatasetKey, Dataset>)

  /** What the dataset upsert writes back: the new dataset and output tables and
      the dataset it returns. */
  datatype Written = Written(
    datasets: map<DatasetKey, Dataset>,
    outputs: map<Uuid, seq<ExtendedDatasetVersionRow>>,
    dataset: Dataset)

  /** The failure that aborts a call. */
  datatype ServiceError = RunNotFound(runUuid: Uuid)
}
