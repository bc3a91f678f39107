/** The scheduler handler: it resolves a connector-operation request against the configuration
    store, hands the work to a job client and maps what comes back into an API response. */
module Handlers {
  import opened Wrappers
  import opened Config
  import opened Exceptions
  import opened Api
  import opened Collaborators

  /** The job information carried by a failed synchronous job. */
  function GetJobInfoFromException(e: Exception): (r: JobInfoRead)
    requires e.SynchronousJobException?
    ensures r == SynchronousJobInfo(e.metadata)
  {
    JobInfoFromMetadata(e.metadata)
  }

  /** Runs a unit of work: a value it returns fills the left slot, a job failure fills the right
      slot with its job information, an I/O failure is rethrown as it is and any other exception
      is rethrown wrapped in a RuntimeException. */
  function ExecuteSynchronousJob<T>(outcome: Outcome<T>): (r: Result<Pair<T, JobInfoRead>>)
    ensures outcome.Returned? ==> r == Ok(Pair(outcome.value, None))
    ensures outcome.Threw? && outcome.thrown.SynchronousJobException? ==>
              r == Ok(Pair(None, Some(JobInfoFromMetadata(outcome.thrown.metadata))))
    ensures outcome.Threw? && outcome.thrown.IOException? ==> r == Err(outcome.thrown)
    ensures outcome.Threw? && !outcome.thrown.SynchronousJobException? && !outcome.thrown.IOException? ==>
              r == Err(RuntimeException(outcome.thrown))
    ensures r.Ok? ==> r.value.AtMostOneSlot()
    ensures r.Err? ==> r.exception.IOException? || r.exception.RuntimeException?
  {
    match outcome
    case Returned(v) => Ok(Pair(v, None))
    case Threw(e) =>
      if e.SynchronousJobException? then Ok(Pair(None, Some(GetJobInfoFromException(e))))
      else if e.IOException? then Err(e)
      else Err(RuntimeException(e))
  }

  /** The check response built from the executor's pair: a missing output counts as FAILED with no
      message, and the job information is copied whether or not it is present. */
  function ReportConnectionStatus(pair: Pair<StandardCheckConnectionOutput, JobInfoRead>): (r: CheckConnectionRead)
    ensures pair.left.None? ==> r.status == Failed && r.message.None?
    ensures pair.left.Some? ==> r.status == pair.left.value.status && r.message == pair.left.value.message
    ensures r.jobInfo == pair.right
  {
    var checkConnectionOutput := pair.left.GetOr(StandardCheckConnectionOutput(Failed, None));
    CheckConnectionRead(checkConnectionOutput.status, checkConnectionOutput.message, pair.right)
  }

  /** The discover response built from the executor's pair, field by field: the job information
      when present, then the catalog when the output is present and holds one. No default is
      filled in. */
  function DiscoverJobToOutput(pair: Pair<StandardDiscoverCatalogOutput, JobInfoRead>): (r: SourceDiscoverSchemaRead)
    ensures r.jobInfo == pair.right
    ensures r.catalog.Some? <==> pair.left.Some? && pair.left.value.catalog.Some?
    ensures r.catalog.Some? ==> r.catalog.value == CatalogToApi(pair.left.value.catalog.value)
  {
    var read := SourceDiscoverSchemaRead(None, None);
    var read := if pair.right.Some? then read.(jobInfo := pair.right) else read;
    var read := if pair.left.Some? && pair.left.value.catalog.Some?
                then read.(catalog := Some(CatalogToApi(pair.left.value.catalog.value)))
                else read;
    read
  }

  /** What a check request answers once its job has run. */
  function CheckJobResponse(outcome: Outcome<StandardCheckConnectionOutput>): (r: Result<CheckConnectionRead>)
    ensures r.Ok? <==> outcome.Returned? || outcome.thrown.SynchronousJobException?
    ensures r.Ok? ==> r.value.JobInfoOnlyOnFailure()
    ensures r.Ok? && r.value.jobInfo.Some? <==> outcome.Threw? && outcome.thrown.SynchronousJobException?
  {
    var output :- ExecuteSynchronousJob(outcome);
    Ok(ReportConnectionStatus(output))
  }

  /** What a discover request answers once its job has run. */
  function DiscoverJobResponse(outcome: Outcome<StandardDiscoverCatalogOutput>): (r: Result<SourceDiscoverSchemaRead>)
    ensures r.Ok? <==> outcome.Returned? || outcome.thrown.SynchronousJobException?
    ensures r.Ok? ==> r.value.catalog.None? || r.value.jobInfo.None?
    ensures r.Ok? && r.value.jobInfo.Some? <==> outcome.Threw? && outcome.thrown.SynchronousJobException?
  {
    var output :- ExecuteSynchronousJob(outcome);
    Ok(DiscoverJobToOutput(output))
  }

  /** The image reference of a source definition. */
  function SourceImageName(definition: StandardSourceDefinition): (imageName: string) {
    GetTaggedImageName(definition.dockerRepository, definition.dockerImageTag)
  }

  /** The image reference of a destination definition. */
  function DestinationImageName(definition: StandardDestinationDefinition): (imageName: string) {
    GetTaggedImageName(definition.dockerRepository, definition.dockerImageTag)
  }

  /** The handler and its six collaborators, fixed when it is constructed. Its operations read
      the collaborators and change nothing. */
  class SchedulerHandler {
    const configRepository: ConfigRepository
    const schedulerJobClient: SchedulerJobClient
    const specFetcher: SpecFetcher
    const schedulerSynchronousJobClient: SchedulerSynchronousJobClient
    const configurationUpdate: ConfigurationUpdate
    const jsonSchemaValidator: JsonSchemaValidator

    constructor (
      configRepository: ConfigRepository,
      schedulerJobClient: SchedulerJobClient,
      configurationUpdate: ConfigurationUpdate,
      jsonSchemaValidator: JsonSchemaValidator,
      specFetcher: SpecFetcher,
      schedulerSynchronousJobClient: SchedulerSynchronousJobClient)
      ensures this.configRepository == configRepository
      ensures this.schedulerJobClient == schedulerJobClient
      ensures this.configurationUpdate == configurationUpdate
      ensures this.jsonSchemaValidator == jsonSchemaValidator
      ensures this.specFetcher == specFetcher
      ensures this.schedulerSynchronousJobClient == schedulerSynchronousJobClient
    {
      this.configRepository := configRepository;
      this.schedulerJobClient := schedulerJobClient;
      this.configurationUpdate := configurationUpdate;
      this.jsonSchemaValidator := jsonSchemaValidator;
      this.specFetcher := specFetcher;
      this.schedulerSynchronousJobClient := schedulerSynchronousJobClient;
    }

    /** Checks a stored source on the image of its definition. */
    function CheckSourceConnectionFromSourceId(body: SourceIdRequestBody): (r: Result<CheckConnectionRead>)
      ensures body.sourceId !in configRepository.sourceConnections ==>
                r == Err(ConfigNotFoundException(SourceConnectionSchema, body.sourceId))
      ensures body.sourceId in configRepository.sourceConnections ==>
                var source := configRepository.sourceConnections[body.sourceId];
                if source.sourceDefinitionId !in configRepository.sourceDefinitions then
                  r == Err(ConfigNotFoundException(StandardSourceDefinitionSchema, source.sourceDefinitionId))
                else
                  var imageName := SourceImageName(configRepository.sourceDefinitions[source.sourceDefinitionId]);
                  r == CheckJobResponse(schedulerSynchronousJobClient.createSourceCheckConnectionJob(source, imageName))
      ensures r.Ok? ==> r.value.JobInfoOnlyOnFailure()
    {
      var source :- configRepository.GetSourceConnection(body.sourceId);
      var sourceDef :- configRepository.GetStandardSourceDefinition(source.sourceDefinitionId);
      var imageName := SourceImageName(sourceDef);
      var output :- ExecuteSynchronousJob(schedulerSynchronousJobClient.createSourceCheckConnectionJob(source, imageName));
      Ok(ReportConnectionStatus(output))
    }

    /** Checks a source that is not stored: a transient source holding only the requested
        definition id and configuration is handed to the job client. */
    function CheckSourceConnectionFromSourceCreate(sourceConfig: SourceCoreConfig): (r: Result<CheckConnectionRead>)
      ensures sourceConfig.sourceDefinitionId !in configRepository.sourceDefinitions ==>
                r == Err(ConfigNotFoundException(StandardSourceDefinitionSchema, sourceConfig.sourceDefinitionId))
      ensures sourceConfig.sourceDefinitionId in configRepository.sourceDefinitions ==>
                var imageName := SourceImageName(configRepository.sourceDefinitions[sourceConfig.sourceDefinitionId]);
                var source := NewSourceConnection(sourceConfig.sourceDefinitionId, sourceConfig.connectionConfiguration);
                r == CheckJobResponse(schedulerSynchronousJobClient.createSourceCheckConnectionJob(source, imageName))
      ensures r.Ok? ==> r.value.JobInfoOnlyOnFailure()
    {
      var sourceDef :- configRepository.GetStandardSourceDefinition(sourceConfig.sourceDefinitionId);
      var imageName := SourceImageName(sourceDef);
      var source := NewSourceConnection(sourceConfig.sourceDefinitionId, sourceConfig.connectionConfiguration);
      var output :- ExecuteSynchronousJob(schedulerSynchronousJobClient.createSourceCheckConnectionJob(source, imageName));
      Ok(ReportConnectionStatus(output))
    }

    /** Merges the update into the stored source, validates the merged configuration against the
        specification of the source's definition and only then checks it as a creation request. */
    function CheckSourceConnectionFromSourceIdForUpdate(sourceUpdate: SourceUpdate): (r: Result<CheckConnectionRead>)
      ensures var updated := configurationUpdate.source(sourceUpdate.sourceId, sourceUpdate.connectionConfiguration);
              && (updated.Err? ==> r == Err(updated.exception))
              && (updated.Ok? ==>
                   var spec := GetSpecFromSourceDefinitionId(updated.value.sourceDefinitionId);
                   && (spec.Err? ==> r == Err(spec.exception))
                   && (spec.Ok? ==>
                        var violations := jsonSchemaValidator.violations(spec.value.connectionSpecification, updated.value.configuration);
                        if violations != [] then
                          r == Err(JsonValidationException(violations))
                        else
                          r == CheckSourceConnectionFromSourceCreate(
                                 SourceCoreConfig(updated.value.sourceDefinitionId, updated.value.configuration))))
    {
      var updatedSource :- configurationUpdate.source(sourceUpdate.sourceId, sourceUpdate.connectionConfiguration);
      var spec :- GetSpecFromSourceDefinitionId(updatedSource.sourceDefinitionId);
      var _ :- jsonSchemaValidator.Validate(spec.connectionSpecification, updatedSource.configuration);
      var sourceCoreConfig := SourceCoreConfig(updatedSource.sourceDefinitionId, updatedSource.configuration);
      CheckSourceConnectionFromSourceCreate(sourceCoreConfig)
    }

    /** Checks a stored destination on the image of its definition. */
    function CheckDestinationConnectionFromDestinationId(body: DestinationIdRequestBody): (r: Result<CheckConnectionRead>)
      ensures body.destinationId !in configRepository.destinationConnections ==>
                r == Err(ConfigNotFoundException(DestinationConnectionSchema, body.destinationId))
      ensures body.destinationId in configRepository.destinationConnections ==>
                var destination := configRepository.destinationConnections[body.destinationId];
                if destination.destinationDefinitionId !in configRepository.destinationDefinitions then
                  r == Err(ConfigNotFoundException(StandardDestinationDefinitionSchema, destination.destinationDefinitionId))
                else
                  var imageName := DestinationImageName(configRepository.destinationDefinitions[destination.destinationDefinitionId]);
                  r == CheckJobResponse(schedulerSynchronousJobClient.createDestinationCheckConnectionJob(destination, imageName))
      ensures r.Ok? ==> r.value.JobInfoOnlyOnFailure()
    {
      var destination :- configRepository.GetDestinationConnection(body.destinationId);
      var destinationDef :- configRepository.GetStandardDestinationDefinition(destination.destinationDefinitionId);
      var imageName := DestinationImageName(destinationDef);
      var output :- ExecuteSynchronousJob(schedulerSynchronousJobClient.createDestinationCheckConnectionJob(destination, imageName));
      Ok(ReportConnectionStatus(output))
    }

    /** Checks a destination that is not stored: a transient destination holding only the
        requested definition id and configuration is handed to the job client. */
    function CheckDestinationConnectionFromDestinationCreate(destinationConfig: DestinationCoreConfig): (r: Result<CheckConnectionRead>)
      ensures destinationConfig.destinationDefinitionId !in configRepository.destinationDefinitions ==>
                r == Err(ConfigNotFoundException(StandardDestinationDefinitionSchema, destinationConfig.destinationDefinitionId))
      ensures destinationConfig.destinationDefinitionId in configRepository.destinationDefinitions ==>
                var imageName := DestinationImageName(configRepository.destinationDefinitions[destinationConfig.destinationDefinitionId]);
                var destination := NewDestinationConnection(destinationConfig.destinationDefinitionId, destinationConfig.connectionConfiguration);
                r == CheckJobResponse(schedulerSynchronousJobClient.createDestinationCheckConnectionJob(destination, imageName))
      ensures r.Ok? ==> r.value.JobInfoOnlyOnFailure()
    {
      var destDef :- configRepository.GetStandardDestinationDefinition(destinationConfig.destinationDefinitionId);
      var imageName := DestinationImageName(destDef);
      var destination := NewDestinationConnection(destinationConfig.destinationDefinitionId, destinationConfig.connectionConfiguration);
      var output :- ExecuteSynchronousJob(schedulerSynchronousJobClient.createDestinationCheckConnectionJob(destination, imageName));
      Ok(ReportConnectionStatus(output))
    }

    /** Merges the update into the stored destination, validates the merged configuration against
        the specification of the destination's definition and only then checks it as a creation
        request. */
    function CheckDestinationConnectionFromDestinationIdForUpdate(destinationUpdate: DestinationUpdate): (r: Result<CheckConnectionRead>)
      ensures var updated := configurationUpdate.destination(destinationUpdate.destinationId, destinationUpdate.connectionConfiguration);
              && (updated.Err? ==> r == Err(updated.exception))
              && (updated.Ok? ==>
                   var spec := GetSpecFromDestinationDefinitionId(updated.value.destinationDefinitionId);
                   && (spec.Err? ==> r == Err(spec.exception))
                   && (spec.Ok? ==>
                        var violations := jsonSchemaValidator.violations(spec.value.connectionSpecification, updated.value.configuration);
                        if violations != [] then
                          r == Err(JsonValidationException(violations))
                        else
                          r == CheckDestinationConnectionFromDestinationCreate(
                                 DestinationCoreConfig(updated.value.destinationDefinitionId, updated.value.configuration))))
    {
      var updatedDestination :- configurationUpdate.destination(destinationUpdate.destinationId, destinationUpdate.connectionConfiguration);
      var spec :- GetSpecFromDestinationDefinitionId(updatedDestination.destinationDefinitionId);
      var _ :- jsonSchemaValidator.Validate(spec.connectionSpecification, updatedDestination.configuration);
      var destinationCoreConfig := DestinationCoreConfig(updatedDestination.destinationDefinitionId, updatedDestination.configuration);
      CheckDestinationConnectionFromDestinationCreate(destinationCoreConfig)
    }

    /** Discovers the schema of a stored source on the image of its definition. */
    function DiscoverSchemaForSourceFromSourceId(body: SourceIdRequestBody): (r: Result<SourceDiscoverSchemaRead>)
      ensures body.sourceId !in configRepository.sourceConnections ==>
                r == Err(ConfigNotFoundException(SourceConnectionSchema, body.sourceId))
      ensures body.sourceId in configRepository.sourceConnections ==>
                var source := configRepository.sourceConnections[body.sourceId];
                if source.sourceDefinitionId !in configRepository.sourceDefinitions then
                  r == Err(ConfigNotFoundException(StandardSourceDefinitionSchema, source.sourceDefinitionId))
                else
                  var imageName := SourceImageName(configRepository.sourceDefinitions[source.sourceDefinitionId]);
                  r == DiscoverJobResponse(schedulerSynchronousJobClient.createDiscoverSchemaJob(source, imageName))
      ensures r.Ok? ==> r.value.catalog.None? || r.value.jobInfo.None?
    {
      var source :- configRepository.GetSourceConnection(body.sourceId);
      var sourceDef :- configRepository.GetStandardSourceDefinition(source.sourceDefinitionId);
      var imageName := SourceImageName(sourceDef);
      var output :- ExecuteSynchronousJob(schedulerSynchronousJobClient.createDiscoverSchemaJob(source, imageName));
      Ok(DiscoverJobToOutput(output))
    }

    /** Discovers the schema of a source that is not stored, through a transient source holding
        only the requested definition id and configuration. */
    function DiscoverSchemaForSourceFromSourceCreate(sourceCreate: SourceCoreConfig): (r: Result<SourceDiscoverSchemaRead>)
      ensures sourceCreate.sourceDefinitionId !in configRepository.sourceDefinitions ==>
                r == Err(ConfigNotFoundException(StandardSourceDefinitionSchema, sourceCreate.sourceDefinitionId))
      ensures sourceCreate.sourceDefinitionId in configRepository.sourceDefinitions ==>
                var imageName := SourceImageName(configRepository.sourceDefinitions[sourceCreate.sourceDefinitionId]);
                var source := NewSourceConnection(sourceCreate.sourceDefinitionId, sourceCreate.connectionConfiguration);
                r == DiscoverJobResponse(schedulerSynchronousJobClient.createDiscoverSchemaJob(source, imageName))
      ensures r.Ok? ==> r.value.catalog.None? || r.value.jobInfo.None?
    {
      var sourceDef :- configRepository.GetStandardSourceDefinition(sourceCreate.sourceDefinitionId);
      var imageName := SourceImageName(sourceDef);
      var source := NewSourceConnection(sourceCreate.sourceDefinitionId, sourceCreate.connectionConfiguration);
      var output :- ExecuteSynchronousJob(schedulerSynchronousJobClient.createDiscoverSchemaJob(source, imageName));
      Ok(DiscoverJobToOutput(output))
    }

    /** The specification of a source definition, tagged with the definition id it was asked for. */
    function GetSourceDefinitionSpecification(body: SourceDefinitionIdRequestBody): (r: Result<SourceDefinitionSpecificationRead>)
      ensures r.Ok? ==> r.value.sourceDefinitionId == body.sourceDefinitionId
      ensures body.sourceDefinitionId !in configRepository.sourceDefinitions ==>
                r == Err(ConfigNotFoundException(StandardSourceDefinitionSchema, body.sourceDefinitionId))
      ensures body.sourceDefinitionId in configRepository.sourceDefinitions ==>
                var spec := specFetcher.execute(SourceImageName(configRepository.sourceDefinitions[body.sourceDefinitionId]));
                && (spec.Err? ==> r == Err(spec.exception))
                && (spec.Ok? ==> r.Ok? && r.value.connectionSpecification == spec.value.connectionSpecification
                                      && r.value.documentationUrl == spec.value.documentationUrl)
    {
      var sourceDefinitionId := body.sourceDefinitionId;
      var source :- configRepository.GetStandardSourceDefinition(sourceDefinitionId);
      var imageName := SourceImageName(source);
      var spec :- GetConnectorSpecification(imageName);
      Ok(SourceDefinitionSpecificationRead(sourceDefinitionId, spec.documentationUrl, spec.connectionSpecification))
    }

    /** The specification of a destination definition, tagged with the definition id it was
        asked for. */
    function GetDestinationSpecification(body: DestinationDefinitionIdRequestBody): (r: Result<DestinationDefinitionSpecificationRead>)
      ensures r.Ok? ==> r.value.destinationDefinitionId == body.destinationDefinitionId
      ensures body.destinationDefinitionId !in configRepository.destinationDefinitions ==>
                r == Err(ConfigNotFoundException(StandardDestinationDefinitionSchema, body.destinationDefinitionId))
      ensures body.destinationDefinitionId in configRepository.destinationDefinitions ==>
                var spec := specFetcher.execute(DestinationImageName(configRepository.destinationDefinitions[body.destinationDefinitionId]));
                && (spec.Err? ==> r == Err(spec.exception))
                && (spec.Ok? ==> r.Ok? && r.value.connectionSpecification == spec.value.connectionSpecification
                                      && r.value.documentationUrl == spec.value.documentationUrl)
    {
      var destinationDefinitionId := body.destinationDefinitionId;
      var destination :- configRepository.GetStandardDestinationDefinition(destinationDefinitionId);
      var imageName := DestinationImageName(destination);
      var spec :- GetConnectorSpecification(imageName);
      Ok(DestinationDefinitionSpecificationRead(destinationDefinitionId, spec.documentationUrl, spec.connectionSpecification))
    }

    /** The specification the spec fetcher reports for an image. */
    function GetConnectorSpecification(dockerImage: string): (r: Result<ConnectorSpecification>)
      ensures r == specFetcher.execute(dockerImage)
    {
      specFetcher.execute(dockerImage)
    }

    /** Resolves the stored sync, its source and destination and both their definitions, then
        makes a single create-or-get-active call for a sync job. */
    function SyncConnection(body: ConnectionIdRequestBody): (r: Result<JobInfoRead>)
      ensures body.connectionId !in configRepository.syncs ==>
                r == Err(ConfigNotFoundException(StandardSyncSchema, body.connectionId))
      ensures body.connectionId in configRepository.syncs ==>
                var standardSync := configRepository.syncs[body.connectionId];
                if standardSync.sourceId !in configRepository.sourceConnections then
                  r == Err(ConfigNotFoundException(SourceConnectionSchema, standardSync.sourceId))
                else if standardSync.destinationId !in configRepository.destinationConnections then
                  r == Err(ConfigNotFoundException(DestinationConnectionSchema, standardSync.destinationId))
                else
                  var source := configRepository.sourceConnections[standardSync.sourceId];
                  var destination := configRepository.destinationConnections[standardSync.destinationId];
                  if source.sourceDefinitionId !in configRepository.sourceDefinitions then
                    r == Err(ConfigNotFoundException(StandardSourceDefinitionSchema, source.sourceDefinitionId))
                  else if destination.destinationDefinitionId !in configRepository.destinationDefinitions then
                    r == Err(ConfigNotFoundException(StandardDestinationDefinitionSchema, destination.destinationDefinitionId))
                  else
                    var job := schedulerJobClient.createOrGetActiveSyncJob(
                      source, destination, standardSync,
                      SourceImageName(configRepository.sourceDefinitions[source.sourceDefinitionId]),
                      DestinationImageName(configRepository.destinationDefinitions[destination.destinationDefinitionId]));
                    && (job.Ok? ==> r == Ok(AsynchronousJobInfo(job.value)))
                    && (job.Err? ==> r == Err(job.exception))
      ensures r.Ok? ==> r.value.AsynchronousJobInfo?
    {
      var connectionId := body.connectionId;
      var standardSync :- configRepository.GetStandardSync(connectionId);
      var source :- configRepository.GetSourceConnection(standardSync.sourceId);
      var destination :- configRepository.GetDestinationConnection(standardSync.destinationId);
      var sourceDef :- configRepository.GetStandardSourceDefinition(source.sourceDefinitionId);
      var sourceImageName := SourceImageName(sourceDef);
      var destinationDef :- configRepository.GetStandardDestinationDefinition(destination.destinationDefinitionId);
      var destinationImageName := DestinationImageName(destinationDef);
      var job :- schedulerJobClient.createOrGetActiveSyncJob(source, destination, standardSync, sourceImageName, destinationImageName);
      Ok(JobInfoFromJob(job))
    }

    /** Resolves the stored sync, its destination and the destination's definition, then makes a
        single create-or-get-active call for a reset job. */
    function ResetConnection(body: ConnectionIdRequestBody): (r: Result<JobInfoRead>)
      ensures body.connectionId !in configRepository.syncs ==>
                r == Err(ConfigNotFoundException(StandardSyncSchema, body.connectionId))
      ensures body.connectionId in configRepository.syncs ==>
                var standardSync := configRepository.syncs[body.connectionId];
                if standardSync.destinationId !in configRepository.destinationConnections then
                  r == Err(ConfigNotFoundException(DestinationConnectionSchema, standardSync.destinationId))
                else
                  var destination := configRepository.destinationConnections[standardSync.destinationId];
                  if destination.destinationDefinitionId !in configRepository.destinationDefinitions then
                    r == Err(ConfigNotFoundException(StandardDestinationDefinitionSchema, destination.destinationDefinitionId))
                  else
                    var job := schedulerJobClient.createOrGetActiveResetConnectionJob(
                      destination, standardSync,
                      DestinationImageName(configRepository.destinationDefinitions[destination.destinationDefinitionId]));
                    && (job.Ok? ==> r == Ok(AsynchronousJobInfo(job.value)))
                    && (job.Err? ==> r == Err(job.exception))
      ensures r.Ok? ==> r.value.AsynchronousJobInfo?
    {
      var connectionId := body.connectionId;
      var standardSync :- configRepository.GetStandardSync(connectionId);
      var destination :- configRepository.GetDestinationConnection(standardSync.destinationId);
      var destinationDef :- configRepository.GetStandardDestinationDefinition(destination.destinationDefinitionId);
      var destinationImageName := DestinationImageName(destinationDef);
      var job :- schedulerJobClient.createOrGetActiveResetConnectionJob(destination, standardSync, destinationImageName);
      Ok(JobInfoFromJob(job))
    }

    /** The specification of the image of a stored source definition. */
    function GetSpecFromSourceDefinitionId(sourceDefId: Uuid): (r: Result<ConnectorSpecification>)
      ensures sourceDefId !in configRepository.sourceDefinitions ==>
                r == Err(ConfigNotFoundException(StandardSourceDefinitionSchema, sourceDefId))
      ensures sourceDefId in configRepository.sourceDefinitions ==>
                r == specFetcher.execute(SourceImageName(configRepository.sourceDefinitions[sourceDefId]))
    {
      var sourceDef :- configRepository.GetStandardSourceDefinition(sourceDefId);
      var imageName := SourceImageName(sourceDef);
      specFetcher.execute(imageName)
    }

    /** The specification of the image of a stored destination definition. */
    function GetSpecFromDestinationDefinitionId(destDefId: Uuid): (r: Result<ConnectorSpecification>)
      ensures destDefId !in configRepository.destinationDefinitions ==>
                r == Err(ConfigNotFoundException(StandardDestinationDefinitionSchema, destDefId))
      ensures destDefId in configRepository.destinationDefinitions ==>
                r == specFetcher.execute(DestinationImageName(configRepository.destinationDefinitions[destDefId]))
    {
      var destinationDef :- configRepository.GetStandardDestinationDefinition(destDefId);
      var imageName := DestinationImageName(destinationDef);
      specFetcher.execute(imageName)
    }
  }
}
