/** Properties of the scheduler handler that relate several calls or several handlers. */
module HandlerProperties {
  import opened Wrappers
  import opened Config
  import opened Exceptions
  import opened Api
  import opened Collaborators
  import opened Handlers

  // ---------------------------------------------------------------------------------------------
  // The synchronous-job executor

  /** Different outcomes of the work give different results: the executor loses nothing, given converters that keep their input. */
  lemma ExecuteSynchronousJobIsInjective<T>(a: Outcome<T>, b: Outcome<T>)
    requires ExecuteSynchronousJob(a) == ExecuteSynchronousJob(b)
    ensures a == b
  {
  }

  /** The pairs the executor can return are exactly those with at most one slot populated and,
      in the right slot, only the information of a synchronous job. */
  lemma {:induction false} ExecuteSynchronousJobPairs<T>(pair: Pair<T, JobInfoRead>)
    ensures (exists outcome: Outcome<T> :: ExecuteSynchronousJob(outcome) == Ok(pair)) <==>
            pair.AtMostOneSlot() && (pair.right.Some? ==> pair.right.value.SynchronousJobInfo?)
  {
    if pair.AtMostOneSlot() && (pair.right.Some? ==> pair.right.value.SynchronousJobInfo?) {
      var outcome: Outcome<T> :=
        if pair.right.Some? then Threw(SynchronousJobException(pair.right.value.metadata))
        else Returned(pair.left);
      assert ExecuteSynchronousJob(outcome) == Ok(pair);
    }
  }

  /** The exceptions the executor can throw are exactly an I/O failure, and a RuntimeException
      wrapping something that is neither a job failure nor an I/O failure. */
  lemma {:induction false} ExecuteSynchronousJobThrows<T>(e: Exception)
    ensures (exists outcome: Outcome<T> :: ExecuteSynchronousJob(outcome) == Err(e)) <==>
            e.IOException? || (e.RuntimeException? && !e.cause.SynchronousJobException? && !e.cause.IOException?)
  {
    if e.IOException? {
      var outcome: Outcome<T> := Threw(e);
      assert ExecuteSynchronousJob(outcome) == Err(e);
    } else if e.RuntimeException? && !e.cause.SynchronousJobException? && !e.cause.IOException? {
      var outcome: Outcome<T> := Threw(e.cause);
      assert ExecuteSynchronousJob(outcome) == Err(e);
    }
  }

  // ---------------------------------------------------------------------------------------------
  // The two response mappers

  /** For a job that ran and produced no output, the check response reports FAILED with no
      message while the discover response carries no catalog and adds nothing; both carry the
      job information unchanged. */
  lemma MissingOutputPolicies(jobInfo: Option<JobInfoRead>)
    ensures ReportConnectionStatus(Pair(None, jobInfo)) == CheckConnectionRead(Failed, None, jobInfo)
    ensures DiscoverJobToOutput(Pair(None, jobInfo)) == SourceDiscoverSchemaRead(None, jobInfo)
  {
  }

  /** A missing check output reads exactly like an explicit FAILED output without a message. */
  lemma ReportConnectionStatusConflatesMissingOutput(jobInfo: Option<JobInfoRead>)
    ensures ReportConnectionStatus(Pair(None, jobInfo)) ==
            ReportConnectionStatus(Pair(Some(StandardCheckConnectionOutput(Failed, None)), jobInfo))
  {
  }

  /** A missing discover output reads exactly like an output whose catalog is null. */
  lemma DiscoverJobToOutputConflatesMissingCatalog(jobInfo: Option<JobInfoRead>)
    ensures DiscoverJobToOutput(Pair(None, jobInfo)) ==
            DiscoverJobToOutput(Pair(Some(StandardDiscoverCatalogOutput(None)), jobInfo))
  {
  }

  /** Apart from a missing output, the check mapper keeps everything: a present output can be
      read back from the response. */
  lemma ReportConnectionStatusKeepsPresentOutput(
    a: Pair<StandardCheckConnectionOutput, JobInfoRead>, b: Pair<StandardCheckConnectionOutput, JobInfoRead>)
    requires a.left.Some? && b.left.Some?
    requires ReportConnectionStatus(a) == ReportConnectionStatus(b)
    ensures a == b
  {
  }

  /** Apart from a missing output or a null catalog, the discover mapper keeps everything: a
      present output can be read back from the response. */
  lemma DiscoverJobToOutputKeepsPresentCatalog(
    c: Pair<StandardDiscoverCatalogOutput, JobInfoRead>, d: Pair<StandardDiscoverCatalogOutput, JobInfoRead>)
    requires c.left.Some? && c.left.value.catalog.Some?
    requires d.left.Some? && d.left.value.catalog.Some?
    requires DiscoverJobToOutput(c) == DiscoverJobToOutput(d)
    ensures c == d
  {
  }

  // ---------------------------------------------------------------------------------------------
  // Check and discover flows

  /** The lookups a stored source needs before a job can run. */
  predicate StoredSourceResolves(repository: ConfigRepository, sourceId: Uuid) {
    && sourceId in repository.sourceConnections
    && repository.sourceConnections[sourceId].sourceDefinitionId in repository.sourceDefinitions
  }

  /** The lookups a stored destination needs before a job can run. */
  predicate StoredDestinationResolves(repository: ConfigRepository, destinationId: Uuid) {
    && destinationId in repository.destinationConnections
    && repository.destinationConnections[destinationId].destinationDefinitionId in repository.destinationDefinitions
  }

  /** A job failure while checking a stored source is reported, not thrown: FAILED, no message,
      and the information of the failed job. */
  lemma CheckFromSourceIdReportsJobFailure(h: SchedulerHandler, body: SourceIdRequestBody, metadata: SynchronousJobMetadata)
    requires StoredSourceResolves(h.configRepository, body.sourceId)
    requires var source := h.configRepository.sourceConnections[body.sourceId];
             var imageName := SourceImageName(h.configRepository.sourceDefinitions[source.sourceDefinitionId]);
             h.schedulerSynchronousJobClient.createSourceCheckConnectionJob(source, imageName)
               == Threw(SynchronousJobException(metadata))
    ensures h.CheckSourceConnectionFromSourceId(body) ==
            Ok(CheckConnectionRead(Failed, None, Some(SynchronousJobInfo(metadata))))
  {
  }

  /** What the job reports for a creation request is what the response says; no output at all
      reads as FAILED with no message. */
  lemma CheckFromSourceCreateReportsOutput(
    h: SchedulerHandler, sourceConfig: SourceCoreConfig, output: Option<StandardCheckConnectionOutput>)
    requires sourceConfig.sourceDefinitionId in h.configRepository.sourceDefinitions
    requires var imageName := SourceImageName(h.configRepository.sourceDefinitions[sourceConfig.sourceDefinitionId]);
             var source := NewSourceConnection(sourceConfig.sourceDefinitionId, sourceConfig.connectionConfiguration);
             h.schedulerSynchronousJobClient.createSourceCheckConnectionJob(source, imageName) == Returned(output)
    ensures output.Some? ==>
              h.CheckSourceConnectionFromSourceCreate(sourceConfig) ==
              Ok(CheckConnectionRead(output.value.status, output.value.message, None))
    ensures output.None? ==>
              h.CheckSourceConnectionFromSourceCreate(sourceConfig) == Ok(CheckConnectionRead(Failed, None, None))
  {
  }

  /** Checking a stored source gives the same answer as checking a creation request made of its
      definition id and configuration, as long as the job client answers the same for the stored
      source and for its transient copy. */
  lemma CheckFromSourceIdAgreesWithCreate(h: SchedulerHandler, body: SourceIdRequestBody)
    requires body.sourceId in h.configRepository.sourceConnections
    requires var source := h.configRepository.sourceConnections[body.sourceId];
             source.sourceDefinitionId in h.configRepository.sourceDefinitions ==>
               var imageName := SourceImageName(h.configRepository.sourceDefinitions[source.sourceDefinitionId]);
               h.schedulerSynchronousJobClient.createSourceCheckConnectionJob(source, imageName) ==
               h.schedulerSynchronousJobClient.createSourceCheckConnectionJob(
                 NewSourceConnection(source.sourceDefinitionId, source.configuration), imageName)
    ensures var source := h.configRepository.sourceConnections[body.sourceId];
            h.CheckSourceConnectionFromSourceId(body) ==
            h.CheckSourceConnectionFromSourceCreate(SourceCoreConfig(source.sourceDefinitionId, source.configuration))
  {
  }

  /** The destination counterpart of CheckFromSourceIdAgreesWithCreate. */
  lemma CheckFromDestinationIdAgreesWithCreate(h: SchedulerHandler, body: DestinationIdRequestBody)
    requires body.destinationId in h.configRepository.destinationConnections
    requires var destination := h.configRepository.destinationConnections[body.destinationId];
             destination.destinationDefinitionId in h.configRepository.destinationDefinitions ==>
               var imageName := DestinationImageName(h.configRepository.destinationDefinitions[destination.destinationDefinitionId]);
               h.schedulerSynchronousJobClient.createDestinationCheckConnectionJob(destination, imageName) ==
               h.schedulerSynchronousJobClient.createDestinationCheckConnectionJob(
                 NewDestinationConnection(destination.destinationDefinitionId, destination.configuration), imageName)
    ensures var destination := h.configRepository.destinationConnections[body.destinationId];
            h.CheckDestinationConnectionFromDestinationId(body) ==
            h.CheckDestinationConnectionFromDestinationCreate(
              DestinationCoreConfig(destination.destinationDefinitionId, destination.configuration))
  {
  }

  /** When a lookup fails, two handlers that share a configuration store give the same not-found
      failure, whatever their synchronous job clients. */
  lemma SynchronousLookupsPrecedeJob(
    h1: SchedulerHandler, h2: SchedulerHandler,
    sourceBody: SourceIdRequestBody, destinationBody: DestinationIdRequestBody, sourceConfig: SourceCoreConfig,
    destinationConfig: DestinationCoreConfig)
    requires h1.configRepository == h2.configRepository
    ensures !StoredSourceResolves(h1.configRepository, sourceBody.sourceId) ==>
              && h1.CheckSourceConnectionFromSourceId(sourceBody) == h2.CheckSourceConnectionFromSourceId(sourceBody)
              && h1.DiscoverSchemaForSourceFromSourceId(sourceBody) == h2.DiscoverSchemaForSourceFromSourceId(sourceBody)
              && h1.CheckSourceConnectionFromSourceId(sourceBody).Err?
              && h1.CheckSourceConnectionFromSourceId(sourceBody).exception.ConfigNotFoundException?
    ensures !StoredDestinationResolves(h1.configRepository, destinationBody.destinationId) ==>
              && h1.CheckDestinationConnectionFromDestinationId(destinationBody) ==
                 h2.CheckDestinationConnectionFromDestinationId(destinationBody)
              && h1.CheckDestinationConnectionFromDestinationId(destinationBody).Err?
              && h1.CheckDestinationConnectionFromDestinationId(destinationBody).exception.ConfigNotFoundException?
    ensures sourceConfig.sourceDefinitionId !in h1.configRepository.sourceDefinitions ==>
              && h1.CheckSourceConnectionFromSourceCreate(sourceConfig) == h2.CheckSourceConnectionFromSourceCreate(sourceConfig)
              && h1.DiscoverSchemaForSourceFromSourceCreate(sourceConfig) ==
                 h2.DiscoverSchemaForSourceFromSourceCreate(sourceConfig)
    ensures destinationConfig.destinationDefinitionId !in h1.configRepository.destinationDefinitions ==>
              h1.CheckDestinationConnectionFromDestinationCreate(destinationConfig) ==
              h2.CheckDestinationConnectionFromDestinationCreate(destinationConfig)
  {
  }

  // ---------------------------------------------------------------------------------------------
  // Update-then-check flows

  /** Two handlers that share everything the update flow consults before its check job. */
  ghost predicate SameBeforeJob(h1: SchedulerHandler, h2: SchedulerHandler) {
    && h1.configRepository == h2.configRepository
    && h1.configurationUpdate == h2.configurationUpdate
    && h1.specFetcher == h2.specFetcher
    && h1.jsonSchemaValidator == h2.jsonSchemaValidator
  }

  /** A merged configuration that fails validation is rejected with the validator's violations
      and the answer does not depend on the synchronous job client. */
  lemma UpdateCheckRejectsInvalidSource(h1: SchedulerHandler, h2: SchedulerHandler, sourceUpdate: SourceUpdate)
    requires SameBeforeJob(h1, h2)
    requires var updated := h1.configurationUpdate.source(sourceUpdate.sourceId, sourceUpdate.connectionConfiguration);
             && updated.Ok?
             && var spec := h1.GetSpecFromSourceDefinitionId(updated.value.sourceDefinitionId);
             && spec.Ok?
             && h1.jsonSchemaValidator.violations(spec.value.connectionSpecification, updated.value.configuration) != []
    ensures var updated := h1.configurationUpdate.source(sourceUpdate.sourceId, sourceUpdate.connectionConfiguration);
            var spec := h1.GetSpecFromSourceDefinitionId(updated.value.sourceDefinitionId);
            && h1.CheckSourceConnectionFromSourceIdForUpdate(sourceUpdate) == h2.CheckSourceConnectionFromSourceIdForUpdate(sourceUpdate)
            && h1.CheckSourceConnectionFromSourceIdForUpdate(sourceUpdate) ==
               Err(JsonValidationException(
                 h1.jsonSchemaValidator.violations(spec.value.connectionSpecification, updated.value.configuration)))
  {
  }

  /** The destination counterpart of UpdateCheckRejectsInvalidSource. */
  lemma UpdateCheckRejectsInvalidDestination(h1: SchedulerHandler, h2: SchedulerHandler, destinationUpdate: DestinationUpdate)
    requires SameBeforeJob(h1, h2)
    requires var updated := h1.configurationUpdate.destination(destinationUpdate.destinationId, destinationUpdate.connectionConfiguration);
             && updated.Ok?
             && var spec := h1.GetSpecFromDestinationDefinitionId(updated.value.destinationDefinitionId);
             && spec.Ok?
             && h1.jsonSchemaValidator.violations(spec.value.connectionSpecification, updated.value.configuration) != []
    ensures var updated := h1.configurationUpdate.destination(destinationUpdate.destinationId, destinationUpdate.connectionConfiguration);
            var spec := h1.GetSpecFromDestinationDefinitionId(updated.value.destinationDefinitionId);
            && h1.CheckDestinationConnectionFromDestinationIdForUpdate(destinationUpdate) ==
               h2.CheckDestinationConnectionFromDestinationIdForUpdate(destinationUpdate)
            && h1.CheckDestinationConnectionFromDestinationIdForUpdate(destinationUpdate) ==
               Err(JsonValidationException(
                 h1.jsonSchemaValidator.violations(spec.value.connectionSpecification, updated.value.configuration)))
  {
  }

  /** In the update-then-check flows, a failed merge, a merged definition missing from the store or
      a failed spec fetch is reported the same whatever the synchronous job client, and a missing
      definition is a not-found failure. */
  lemma UpdateLookupsPrecedeJob(
    h1: SchedulerHandler, h2: SchedulerHandler, sourceUpdate: SourceUpdate, destinationUpdate: DestinationUpdate)
    requires SameBeforeJob(h1, h2)
    ensures var updated := h1.configurationUpdate.source(sourceUpdate.sourceId, sourceUpdate.connectionConfiguration);
            (updated.Err? || h1.GetSpecFromSourceDefinitionId(updated.value.sourceDefinitionId).Err?) ==>
              && h1.CheckSourceConnectionFromSourceIdForUpdate(sourceUpdate) ==
                 h2.CheckSourceConnectionFromSourceIdForUpdate(sourceUpdate)
              && h1.CheckSourceConnectionFromSourceIdForUpdate(sourceUpdate).Err?
    ensures var updated := h1.configurationUpdate.source(sourceUpdate.sourceId, sourceUpdate.connectionConfiguration);
            (updated.Ok? && updated.value.sourceDefinitionId !in h1.configRepository.sourceDefinitions) ==>
              h1.CheckSourceConnectionFromSourceIdForUpdate(sourceUpdate) ==
              Err(ConfigNotFoundException(StandardSourceDefinitionSchema, updated.value.sourceDefinitionId))
    ensures var updated := h1.configurationUpdate.destination(destinationUpdate.destinationId, destinationUpdate.connectionConfiguration);
            (updated.Err? || h1.GetSpecFromDestinationDefinitionId(updated.value.destinationDefinitionId).Err?) ==>
              && h1.CheckDestinationConnectionFromDestinationIdForUpdate(destinationUpdate) ==
                 h2.CheckDestinationConnectionFromDestinationIdForUpdate(destinationUpdate)
              && h1.CheckDestinationConnectionFromDestinationIdForUpdate(destinationUpdate).Err?
    ensures var updated := h1.configurationUpdate.destination(destinationUpdate.destinationId, destinationUpdate.connectionConfiguration);
            (updated.Ok? && updated.value.destinationDefinitionId !in h1.configRepository.destinationDefinitions) ==>
              h1.CheckDestinationConnectionFromDestinationIdForUpdate(destinationUpdate) ==
              Err(ConfigNotFoundException(StandardDestinationDefinitionSchema, updated.value.destinationDefinitionId))
  {
  }

  /** Once the merged configuration passes validation, the check runs a transient source with the
      merged configuration on the very image whose specification it was validated against, and
      only the job itself can still fail. */
  lemma UpdateCheckUsesValidatedSourceImage(h: SchedulerHandler, sourceUpdate: SourceUpdate)
    requires var updated := h.configurationUpdate.source(sourceUpdate.sourceId, sourceUpdate.connectionConfiguration);
             && updated.Ok?
             && var spec := h.GetSpecFromSourceDefinitionId(updated.value.sourceDefinitionId);
             && spec.Ok?
             && h.jsonSchemaValidator.violations(spec.value.connectionSpecification, updated.value.configuration) == []
    ensures var updated := h.configurationUpdate.source(sourceUpdate.sourceId, sourceUpdate.connectionConfiguration).value;
            && updated.sourceDefinitionId in h.configRepository.sourceDefinitions
            && var imageName := SourceImageName(h.configRepository.sourceDefinitions[updated.sourceDefinitionId]);
            && h.GetSpecFromSourceDefinitionId(updated.sourceDefinitionId) == h.specFetcher.execute(imageName)
            && h.CheckSourceConnectionFromSourceIdForUpdate(sourceUpdate) ==
               CheckJobResponse(h.schedulerSynchronousJobClient.createSourceCheckConnectionJob(
                 NewSourceConnection(updated.sourceDefinitionId, updated.configuration), imageName))
    ensures var r := h.CheckSourceConnectionFromSourceIdForUpdate(sourceUpdate);
            r.Err? ==> r.exception.IOException? || r.exception.RuntimeException?
  {
  }

  /** The destination counterpart of UpdateCheckUsesValidatedSourceImage. */
  lemma UpdateCheckUsesValidatedDestinationImage(h: SchedulerHandler, destinationUpdate: DestinationUpdate)
    requires var updated := h.configurationUpdate.destination(destinationUpdate.destinationId, destinationUpdate.connectionConfiguration);
             && updated.Ok?
             && var spec := h.GetSpecFromDestinationDefinitionId(updated.value.destinationDefinitionId);
             && spec.Ok?
             && h.jsonSchemaValidator.violations(spec.value.connectionSpecification, updated.value.configuration) == []
    ensures var updated := h.configurationUpdate.destination(destinationUpdate.destinationId, destinationUpdate.connectionConfiguration).value;
            && updated.destinationDefinitionId in h.configRepository.destinationDefinitions
            && var imageName := DestinationImageName(h.configRepository.destinationDefinitions[updated.destinationDefinitionId]);
            && h.GetSpecFromDestinationDefinitionId(updated.destinationDefinitionId) == h.specFetcher.execute(imageName)
            && h.CheckDestinationConnectionFromDestinationIdForUpdate(destinationUpdate) ==
               CheckJobResponse(h.schedulerSynchronousJobClient.createDestinationCheckConnectionJob(
                 NewDestinationConnection(updated.destinationDefinitionId, updated.configuration), imageName))
    ensures var r := h.CheckDestinationConnectionFromDestinationIdForUpdate(destinationUpdate);
            r.Err? ==> r.exception.IOException? || r.exception.RuntimeException?
  {
  }

  // ---------------------------------------------------------------------------------------------
  // Specification flows

  /** The specification endpoint publishes the schema that the update flow validates against. */
  lemma SpecificationEndpointsMatchValidationSchema(
    h: SchedulerHandler, sourceBody: SourceDefinitionIdRequestBody, destinationBody: DestinationDefinitionIdRequestBody)
    ensures var published := h.GetSourceDefinitionSpecification(sourceBody);
            var used := h.GetSpecFromSourceDefinitionId(sourceBody.sourceDefinitionId);
            && (published.Ok? <==> used.Ok?)
            && (published.Ok? ==>
                  published.value.connectionSpecification == used.value.connectionSpecification &&
                  published.value.documentationUrl == used.value.documentationUrl)
            && (published.Err? ==> published.exception == used.exception)
    ensures var published := h.GetDestinationSpecification(destinationBody);
            var used := h.GetSpecFromDestinationDefinitionId(destinationBody.destinationDefinitionId);
            && (published.Ok? <==> used.Ok?)
            && (published.Ok? ==>
                  published.value.connectionSpecification == used.value.connectionSpecification &&
                  published.value.documentationUrl == used.value.documentationUrl)
            && (published.Err? ==> published.exception == used.exception)
  {
  }

  // ---------------------------------------------------------------------------------------------
  // Sync and reset flows

  /** The five lookups a sync needs before its job can be submitted. */
  predicate SyncResolves(repository: ConfigRepository, connectionId: Uuid) {
    && connectionId in repository.syncs
    && StoredSourceResolves(repository, repository.syncs[connectionId].sourceId)
    && StoredDestinationResolves(repository, repository.syncs[connectionId].destinationId)
  }

  /** The three lookups a reset needs before its job can be submitted. */
  predicate ResetResolves(repository: ConfigRepository, connectionId: Uuid) {
    && connectionId in repository.syncs
    && StoredDestinationResolves(repository, repository.syncs[connectionId].destinationId)
  }

  /** When a lookup fails, the answer does not depend on the job client: two handlers that share a configuration store
      give the same not-found failure, whatever their asynchronous job clients. */
  lemma AsynchronousLookupsPrecedeJob(h1: SchedulerHandler, h2: SchedulerHandler, body: ConnectionIdRequestBody)
    requires h1.configRepository == h2.configRepository
    ensures !SyncResolves(h1.configRepository, body.connectionId) ==>
              && h1.SyncConnection(body) == h2.SyncConnection(body)
              && h1.SyncConnection(body).Err? && h1.SyncConnection(body).exception.ConfigNotFoundException?
    ensures !ResetResolves(h1.configRepository, body.connectionId) ==>
              && h1.ResetConnection(body) == h2.ResetConnection(body)
              && h1.ResetConnection(body).Err? && h1.ResetConnection(body).exception.ConfigNotFoundException?
  {
  }

  /** Once everything resolves, the sync response is the job handed back by the
      create-or-get-active call, whether that job is new or was already active. */
  lemma SyncReturnsTheClientsJob(h: SchedulerHandler, body: ConnectionIdRequestBody)
    requires SyncResolves(h.configRepository, body.connectionId)
    ensures var repository := h.configRepository;
            var standardSync := repository.syncs[body.connectionId];
            var source := repository.sourceConnections[standardSync.sourceId];
            var destination := repository.destinationConnections[standardSync.destinationId];
            var sourceImageName := SourceImageName(repository.sourceDefinitions[source.sourceDefinitionId]);
            var destinationImageName := DestinationImageName(repository.destinationDefinitions[destination.destinationDefinitionId]);
            var syncJob := h.schedulerJobClient.createOrGetActiveSyncJob(
                             source, destination, standardSync, sourceImageName, destinationImageName);
            && (syncJob.Ok? <==> h.SyncConnection(body).Ok?)
            && (syncJob.Ok? ==> h.SyncConnection(body).value == AsynchronousJobInfo(syncJob.value))
  {
  }

  /** Once the destination side resolves, the reset response is the job handed back by the
      create-or-get-active call, whether that job is new or was already active. */
  lemma ResetReturnsTheClientsJob(h: SchedulerHandler, body: ConnectionIdRequestBody)
    requires ResetResolves(h.configRepository, body.connectionId)
    ensures var repository := h.configRepository;
            var standardSync := repository.syncs[body.connectionId];
            var destination := repository.destinationConnections[standardSync.destinationId];
            var destinationImageName := DestinationImageName(repository.destinationDefinitions[destination.destinationDefinitionId]);
            var resetJob := h.schedulerJobClient.createOrGetActiveResetConnectionJob(
                              destination, standardSync, destinationImageName);
            && (resetJob.Ok? <==> h.ResetConnection(body).Ok?)
            && (resetJob.Ok? ==> h.ResetConnection(body).value == AsynchronousJobInfo(resetJob.value))
  {
  }

  /** A reset never reads the source: handlers that differ only in their stored sources and
      source definitions (or in their sync client) give the same reset answer. */
  lemma ResetNeverReadsSource(h1: SchedulerHandler, h2: SchedulerHandler, body: ConnectionIdRequestBody)
    requires h1.configRepository.syncs == h2.configRepository.syncs
    requires h1.configRepository.destinationConnections == h2.configRepository.destinationConnections
    requires h1.configRepository.destinationDefinitions == h2.configRepository.destinationDefinitions
    requires h1.schedulerJobClient.createOrGetActiveResetConnectionJob == h2.schedulerJobClient.createOrGetActiveResetConnectionJob
    ensures h1.ResetConnection(body) == h2.ResetConnection(body)
  {
  }
}
