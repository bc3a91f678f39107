/** The collaborators the handler calls, as values: the configuration store as maps, the job
    clients, the spec fetcher, the configuration merger and the schema validator as functions. */
module Collaborators {
  import opened Config
  import opened Exceptions

  /** The stored configurations, by id. A missing key is a ConfigNotFoundException. */
  datatype ConfigRepository = ConfigRepository(
    sourceDefinitions: map<Uuid, StandardSourceDefinition>,
    destinationDefinitions: map<Uuid, StandardDestinationDefinition>,
    sourceConnections: map<Uuid, SourceConnection>,
    destinationConnections: map<Uuid, DestinationConnection>,
    syncs: map<Uuid, StandardSync>)
  {
    function GetStandardSourceDefinition(id: Uuid): (r: Result<StandardSourceDefinition>) {
      if id in sourceDefinitions then Ok(sourceDefinitions[id])
      else Err(ConfigNotFoundException(StandardSourceDefinitionSchema, id))
    }

    function GetStandardDestinationDefinition(id: Uuid): (r: Result<StandardDestinationDefinition>) {
      if id in destinationDefinitions then Ok(destinationDefinitions[id])
      else Err(ConfigNotFoundException(StandardDestinationDefinitionSchema, id))
    }

    function GetSourceConnection(id: Uuid): (r: Result<SourceConnection>) {
      if id in sourceConnections then Ok(sourceConnections[id])
      else Err(ConfigNotFoundException(SourceConnectionSchema, id))
    }

    function GetDestinationConnection(id: Uuid): (r: Result<DestinationConnection>) {
      if id in destinationConnections then Ok(destinationConnections[id])
      else Err(ConfigNotFoundException(DestinationConnectionSchema, id))
    }

    function GetStandardSync(id: Uuid): (r: Result<StandardSync>) {
      if id in syncs then Ok(syncs[id])
      else Err(ConfigNotFoundException(StandardSyncSchema, id))
    }
  }

  /** The blocking job client: each call runs a job on the given image and returns what the
      connector reported, or throws. */
  datatype SchedulerSynchronousJobClient = SchedulerSynchronousJobClient(
    createSourceCheckConnectionJob: (SourceConnection, string) -> Outcome<StandardCheckConnectionOutput>,
    createDestinationCheckConnectionJob: (DestinationConnection, string) -> Outcome<StandardCheckConnectionOutput>,
    createDiscoverSchemaJob: (SourceConnection, string) -> Outcome<StandardDiscoverCatalogOutput>)

  /** The asynchronous job client: each call returns the new job, or the job already active for
      the connection. */
  datatype SchedulerJobClient = SchedulerJobClient(
    createOrGetActiveSyncJob: (SourceConnection, DestinationConnection, StandardSync, string, string) -> Result<Job>,
    createOrGetActiveResetConnectionJob: (DestinationConnection, StandardSync, string) -> Result<Job>)

  /** Fetches the specification a connector image declares. */
  datatype SpecFetcher = SpecFetcher(execute: string -> Result<ConnectorSpecification>)

  /** Merges new configuration into a stored connection and returns the updated connection. */
  datatype ConfigurationUpdate = ConfigurationUpdate(
    source: (Uuid, Json) -> Result<SourceConnection>,
    destination: (Uuid, Json) -> Result<DestinationConnection>)

  /** Validates a document against a JSON schema; `violations` lists what is wrong with it. */
  datatype JsonSchemaValidator = JsonSchemaValidator(violations: (Json, Json) -> seq<string>) {

    /** Returns normally when the document has no violations, and throws otherwise. */
    function Validate(schema: Json, document: Json): (r: Result<()>) {
      var found := violations(schema, document);
      if found == [] then Ok(()) else Err(JsonValidationException(found))
    }
  }

  /** The image reference of a connector: its repository and tag joined by a colon. */
  function GetTaggedImageName(repository: string, tag: string): (imageName: string) {
    repository + ":" + tag
  }
}
