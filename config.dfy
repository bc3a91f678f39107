/** The stored configuration records the handler reads, and the outputs reported by connector jobs. */
module Config {
  import opened Wrappers

  /** Identity of a stored configuration (a UUID in the system). */
  type Uuid = nat

  /** A JSON document. Its structure belongs to the connector and is not interpreted here. */
  type Json = string

  /** Catalog entry for a source type, with the coordinates of its container image. */
  datatype StandardSourceDefinition = StandardSourceDefinition(
    sourceDefinitionId: Uuid,
    name: string,
    dockerRepository: string,
    dockerImageTag: string)

  /** Catalog entry for a destination type, with the coordinates of its container image. */
  datatype StandardDestinationDefinition = StandardDestinationDefinition(
    destinationDefinitionId: Uuid,
    name: string,
    dockerRepository: string,
    dockerImageTag: string)

  /** A configured source. The optional fields are the ones a stored source has and a transient
      source, built from a creation request, leaves unset. */
  datatype SourceConnection = SourceConnection(
    sourceId: Option<Uuid>,
    workspaceId: Option<Uuid>,
    name: Option<string>,
    tombstone: Option<bool>,
    sourceDefinitionId: Uuid,
    configuration: Json)
  {
    /** Carries nothing but a definition id and a configuration. */
    predicate IsTransient() {
      sourceId.None? && workspaceId.None? && name.None? && tombstone.None?
    }
  }

  /** A configured destination, stored or transient as for SourceConnection. */
  datatype DestinationConnection = DestinationConnection(
    destinationId: Option<Uuid>,
    workspaceId: Option<Uuid>,
    name: Option<string>,
    tombstone: Option<bool>,
    destinationDefinitionId: Uuid,
    configuration: Json)
  {
    /** Carries nothing but a definition id and a configuration. */
    predicate IsTransient() {
      destinationId.None? && workspaceId.None? && name.None? && tombstone.None?
    }
  }

  /** `new SourceConnection().withSourceDefinitionId(..).withConfiguration(..)`. */
  function NewSourceConnection(sourceDefinitionId: Uuid, configuration: Json): (s: SourceConnection)
    ensures s.IsTransient()
    ensures s.sourceDefinitionId == sourceDefinitionId && s.configuration == configuration
  {
    SourceConnection(None, None, None, None, sourceDefinitionId, configuration)
  }

  /** `new DestinationConnection().withDestinationDefinitionId(..).withConfiguration(..)`. */
  function NewDestinationConnection(destinationDefinitionId: Uuid, configuration: Json): (d: DestinationConnection)
    ensures d.IsTransient()
    ensures d.destinationDefinitionId == destinationDefinitionId && d.configuration == configuration
  {
    DestinationConnection(None, None, None, None, destinationDefinitionId, configuration)
  }

  /** A stored pairing of one source and one destination; its identity is the connection id. */
  datatype StandardSync = StandardSync(
    connectionId: Uuid,
    sourceId: Uuid,
    destinationId: Uuid,
    name: string)

  /** Status reported by a check-connection job. The API's status enum has the same two
      constants and is converted by name, so one type serves both. */
  datatype CheckStatus = Succeeded | Failed

  /** What a check-connection job reports; the message may be null. */
  datatype StandardCheckConnectionOutput = StandardCheckConnectionOutput(
    status: CheckStatus,
    message: Option<string>)

  /** The catalog of streams a source reports, kept as a document. */
  datatype AirbyteCatalog = AirbyteCatalog(streams: Json)

  /** What a discover-schema job reports; the catalog may be null. */
  datatype StandardDiscoverCatalogOutput = StandardDiscoverCatalogOutput(catalog: Option<AirbyteCatalog>)

  /** The specification a connector declares: its documentation and its configuration schema. */
  datatype ConnectorSpecification = ConnectorSpecification(
    documentationUrl: string,
    connectionSpecification: Json)

  /** The kind of a job, as recorded in job metadata. */
  datatype JobConfigType =
    | CheckConnectionSource
    | CheckConnectionDestination
    | DiscoverSchema
    | GetSpec
    | Sync
    | ResetConnection

  /** Lifecycle state of an asynchronous job. */
  datatype JobStatus = Pending | Running | Incomplete | JobFailed | JobSucceeded | Cancelled

  /** A persisted asynchronous job. */
  datatype Job = Job(
    id: nat,
    configType: JobConfigType,
    scope: string,
    status: JobStatus,
    createdAt: int,
    startedAt: Option<int>,
    updatedAt: int)

  /** The record a blocking job leaves behind, whether it succeeded or failed. */
  datatype SynchronousJobMetadata = SynchronousJobMetadata(
    id: Uuid,
    configType: JobConfigType,
    configId: Option<Uuid>,
    createdAt: int,
    endedAt: int,
    succeeded: bool,
    logPath: string)
}
