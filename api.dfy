/** Request and response records of the server's API, and the converters that build them. */
module Api {
  import opened Wrappers
  import opened Config

  datatype SourceIdRequestBody = SourceIdRequestBody(sourceId: Uuid)

  datatype DestinationIdRequestBody = DestinationIdRequestBody(destinationId: Uuid)

  datatype SourceDefinitionIdRequestBody = SourceDefinitionIdRequestBody(sourceDefinitionId: Uuid)

  datatype DestinationDefinitionIdRequestBody = DestinationDefinitionIdRequestBody(destinationDefinitionId: Uuid)

  datatype ConnectionIdRequestBody = ConnectionIdRequestBody(connectionId: Uuid)

  /** A source that is not stored: a definition and a configuration. */
  datatype SourceCoreConfig = SourceCoreConfig(sourceDefinitionId: Uuid, connectionConfiguration: Json)

  /** A destination that is not stored: a definition and a configuration. */
  datatype DestinationCoreConfig = DestinationCoreConfig(destinationDefinitionId: Uuid, connectionConfiguration: Json)

  /** New configuration for a stored source. */
  datatype SourceUpdate = SourceUpdate(sourceId: Uuid, connectionConfiguration: Json, name: string)

  /** New configuration for a stored destination. */
  datatype DestinationUpdate = DestinationUpdate(destinationId: Uuid, connectionConfiguration: Json, name: string)

  /** Job information as the API reports it. The two converters that build it copy fields; here
      each record keeps what it was built from. */
  datatype JobInfoRead =
    | SynchronousJobInfo(metadata: SynchronousJobMetadata)
    | AsynchronousJobInfo(job: Job)

  /** The API's view of a catalog (CatalogConverter.toApi). */
  datatype AirbyteCatalogRead = AirbyteCatalogRead(catalog: AirbyteCatalog)

  /** Response of a check-connection request; message and jobInfo may be null. */
  datatype CheckConnectionRead = CheckConnectionRead(
    status: CheckStatus,
    message: Option<string>,
    jobInfo: Option<JobInfoRead>)
  {
    /** Job information is attached only to a response that reports failure without a message. */
    predicate JobInfoOnlyOnFailure() {
      jobInfo.Some? ==> status == Failed && message.None?
    }
  }

  /** Response of a discover-schema request: a catalog and job information, each possibly null. */
  datatype SourceDiscoverSchemaRead = SourceDiscoverSchemaRead(
    catalog: Option<AirbyteCatalogRead>,
    jobInfo: Option<JobInfoRead>)

  datatype SourceDefinitionSpecificationRead = SourceDefinitionSpecificationRead(
    sourceDefinitionId: Uuid,
    documentationUrl: string,
    connectionSpecification: Json)

  datatype DestinationDefinitionSpecificationRead = DestinationDefinitionSpecificationRead(
    destinationDefinitionId: Uuid,
    documentationUrl: string,
    connectionSpecification: Json)

  /** JobMetadataConverter.getJobInfoRead. */
  function JobInfoFromMetadata(metadata: SynchronousJobMetadata): (info: JobInfoRead) {
    SynchronousJobInfo(metadata)
  }

  /** JobConverter.getJobInfoRead. */
  function JobInfoFromJob(job: Job): (info: JobInfoRead) {
    AsynchronousJobInfo(job)
  }

  /** CatalogConverter.toApi. */
  function CatalogToApi(catalog: AirbyteCatalog): (read: AirbyteCatalogRead) {
    AirbyteCatalogRead(catalog)
  }
}
