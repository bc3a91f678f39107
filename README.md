# Scheduler handler: connector operations as verified Dafny

This project models the connector-operation layer of Airbyte's server, the class
`SchedulerHandler` (`airbyte-server/src/main/java/io/airbyte/server/handlers/SchedulerHandler.java`).
The layer turns an API request into calls on its collaborators and maps what they return into an
API response. It covers these operations:

- check a source or destination: stored, from a creation request, or after an update;
- discover a source's schema: stored, or from a creation request;
- fetch a connector definition's specification;
- submit a sync or reset job for a stored connection.

How the Java maps onto Dafny:

- **Exceptions become values.** `Exceptions.Exception` lists the exceptions that cross the layer.
  `Exceptions.Result` is a return value or a thrown exception. Dafny's `:-` propagates an exception
  the way the Java method's `throws` clause does. `Exceptions.Outcome` is what a unit of work
  (a `CheckedSupplier`) did: it returned a value, possibly null (`Returned(None)`), or it threw.
- **Collaborators are values** (`collaborators.dfy`):
  - the configuration repository is five finite maps, and a missing key is a `ConfigNotFoundException`;
  - the synchronous job client, the asynchronous job client, the spec fetcher and the configuration
    merger are function-valued fields that return an outcome or a result;
  - the JSON-schema validator is a function listing violations; `Validate` throws when the list is non-empty.
- **The handler is a class.** `Handlers.SchedulerHandler` has its six collaborators as `const`
  fields, so they are assigned once, in the constructor. Its operations are functions: they read
  the collaborators and change nothing. The static helpers, and `reportConnectionStatus`, which reads
  no field, are module-level functions in `Handlers`; `getSpecFrom*DefinitionId` read the
  repository and stay in the class.
- **Converters only tag their input.** The API's `JobInfoRead` keeps the synchronous-job metadata
  or the job it was built from. `AirbyteCatalogRead` keeps its catalog. The two check-status enums
  share one type, because `Enums.convertTo` maps them by name.
- **"No job is submitted" is non-interference.** Two handlers that differ only in their job client
  give the same answer. Without a call log, this stands in for "the client was not called".

Job information is attached only when the job fails with a `SynchronousJobException`
(`SchedulerHandler.java:316-320`); a successful job yields `(value, null)`. So the model proves
that no response carries both an output and job information.

## Model

| member | source | states |
|---|---|---|
| `Handlers.ExecuteSynchronousJob` | airbyte-server/src/main/java/io/airbyte/server/handlers/SchedulerHandler.java:316-326 | The four-way policy. A returned value `v` gives `(v, none)`. A job failure gives `(none, job info of its metadata)`. An I/O failure is rethrown unchanged. Any other exception is rethrown wrapped in a RuntimeException. A returned pair never has both slots. Of the modelled exceptions, only an IOException or a RuntimeException is ever thrown. |
| `HandlerProperties.ExecuteSynchronousJobIsInjective` | airbyte-server/src/main/java/io/airbyte/server/handlers/SchedulerHandler.java:316-326 | Different outcomes of the work give different results: the executor loses nothing, given converters that keep their input. |
| `HandlerProperties.ExecuteSynchronousJobPairs` | airbyte-server/src/main/java/io/airbyte/server/handlers/SchedulerHandler.java:316-320 | A pair can be returned if and only if at most one slot is set and any right slot holds synchronous-job information. |
| `HandlerProperties.ExecuteSynchronousJobThrows` | airbyte-server/src/main/java/io/airbyte/server/handlers/SchedulerHandler.java:321-325 | An exception can be thrown if and only if it is an IOException, or a RuntimeException wrapping something that is neither a job failure nor an I/O failure. A job failure is never thrown. |
| `Handlers.GetJobInfoFromException` | airbyte-server/src/main/java/io/airbyte/server/handlers/SchedulerHandler.java:312-314 | The job information of a failed synchronous job is the one built from its metadata. |
| `Handlers.ReportConnectionStatus` | airbyte-server/src/main/java/io/airbyte/server/handlers/SchedulerHandler.java:287-296 | With no output: status FAILED and no message. With an output: its status and message. In both cases jobInfo is the right slot. |
| `Handlers.DiscoverJobToOutput` | airbyte-server/src/main/java/io/airbyte/server/handlers/SchedulerHandler.java:209-218 | jobInfo is exactly the right slot. A catalog is set if and only if the output is present and holds a catalog, and it is that catalog converted. No status or default is added. |
| `HandlerProperties.MissingOutputPolicies` | airbyte-server/src/main/java/io/airbyte/server/handlers/SchedulerHandler.java:209-296 | For a job with no output, the check response is `(FAILED, no message, jobInfo)` and the discover response is `(no catalog, jobInfo)`. |
| `HandlerProperties.ReportConnectionStatusConflatesMissingOutput` | airbyte-server/src/main/java/io/airbyte/server/handlers/SchedulerHandler.java:288-290 | A missing check output reads exactly like an explicit FAILED output with no message. |
| `HandlerProperties.DiscoverJobToOutputConflatesMissingCatalog` | airbyte-server/src/main/java/io/airbyte/server/handlers/SchedulerHandler.java:213-215 | A missing discover output reads exactly like an output whose catalog is null. |
| `HandlerProperties.ReportConnectionStatusKeepsPresentOutput` | airbyte-server/src/main/java/io/airbyte/server/handlers/SchedulerHandler.java:287-296 | Apart from a missing output, the check mapper is injective: a present output can be read back from the response. |
| `HandlerProperties.DiscoverJobToOutputKeepsPresentCatalog` | airbyte-server/src/main/java/io/airbyte/server/handlers/SchedulerHandler.java:209-218 | Apart from a missing output or a null catalog, the discover mapper is injective: a present output can be read back from the response. |
| `Handlers.CheckJobResponse` | airbyte-server/src/main/java/io/airbyte/server/handlers/SchedulerHandler.java:112-114 | A check returns a response if and only if the job returned or failed as a job. It carries job information if and only if the job failed, and then it reports FAILED with no message. |
| `Handlers.DiscoverJobResponse` | airbyte-server/src/main/java/io/airbyte/server/handlers/SchedulerHandler.java:190-192 | A discovery returns a response if and only if the job returned or failed as a job. It carries job information if and only if the job failed. It never carries both a catalog and job information. |
| `Config.NewSourceConnection` | airbyte-server/src/main/java/io/airbyte/server/handlers/SchedulerHandler.java:123-125 | A source built from a creation request has no id, workspace, name or tombstone. It carries the given definition id and configuration. |
| `Config.NewDestinationConnection` | airbyte-server/src/main/java/io/airbyte/server/handlers/SchedulerHandler.java:162-164 | The same for a destination. |
| `Handlers.SchedulerHandler.constructor` | airbyte-server/src/main/java/io/airbyte/server/handlers/SchedulerHandler.java:92-104 | The six collaborators are the ones given. |
| `Handlers.SchedulerHandler.CheckSourceConnectionFromSourceId` | airbyte-server/src/main/java/io/airbyte/server/handlers/SchedulerHandler.java:106-115 | A missing source is not-found; then a missing definition is not-found. Otherwise the stored source is checked on its definition's image. Job information only accompanies FAILED. |
| `Handlers.SchedulerHandler.CheckSourceConnectionFromSourceCreate` | airbyte-server/src/main/java/io/airbyte/server/handlers/SchedulerHandler.java:117-130 | A missing definition is not-found. Otherwise a transient source with the requested definition id and configuration is checked on the definition's image. |
| `Handlers.SchedulerHandler.CheckSourceConnectionFromSourceIdForUpdate` | airbyte-server/src/main/java/io/airbyte/server/handlers/SchedulerHandler.java:132-144 | Failures of the merge, and then of fetching the spec, propagate. Validation violations are thrown as a JsonValidationException. Otherwise the result is the creation check of (merged definition id, merged configuration). |
| `Handlers.SchedulerHandler.CheckDestinationConnectionFromDestinationId` | airbyte-server/src/main/java/io/airbyte/server/handlers/SchedulerHandler.java:146-154 | As for the source, on the destination side. |
| `Handlers.SchedulerHandler.CheckDestinationConnectionFromDestinationCreate` | airbyte-server/src/main/java/io/airbyte/server/handlers/SchedulerHandler.java:156-168 | As for the source, with a transient destination. |
| `Handlers.SchedulerHandler.CheckDestinationConnectionFromDestinationIdForUpdate` | airbyte-server/src/main/java/io/airbyte/server/handlers/SchedulerHandler.java:170-183 | As for the source: merge, fetch the spec, validate, and only then the creation check. |
| `Handlers.SchedulerHandler.DiscoverSchemaForSourceFromSourceId` | airbyte-server/src/main/java/io/airbyte/server/handlers/SchedulerHandler.java:185-193 | A missing source, then a missing definition, is not-found. Otherwise a discover job runs on the stored source. Catalog and job information are never both present. |
| `Handlers.SchedulerHandler.DiscoverSchemaForSourceFromSourceCreate` | airbyte-server/src/main/java/io/airbyte/server/handlers/SchedulerHandler.java:195-207 | A missing definition is not-found. Otherwise a discover job runs on a transient source with the requested definition id and configuration. |
| `Handlers.SchedulerHandler.GetSourceDefinitionSpecification` | airbyte-server/src/main/java/io/airbyte/server/handlers/SchedulerHandler.java:220-230 | The response carries back the requested definition id, plus the schema and documentation URL fetched for the definition's image. A missing definition is not-found. A fetch failure propagates. |
| `Handlers.SchedulerHandler.GetDestinationSpecification` | airbyte-server/src/main/java/io/airbyte/server/handlers/SchedulerHandler.java:232-242 | The same for a destination definition. |
| `Handlers.SchedulerHandler.GetConnectorSpecification` | airbyte-server/src/main/java/io/airbyte/server/handlers/SchedulerHandler.java:244-246 | The specification of an image is what the spec fetcher reports for it, failures included. |
| `Handlers.SchedulerHandler.SyncConnection` | airbyte-server/src/main/java/io/airbyte/server/handlers/SchedulerHandler.java:248-270 | Lookups happen in order: sync, source, destination, source definition, destination definition. The first missing one is the reported not-found. Otherwise the response is the result of the create-or-get-active sync call on the resolved records and images, converted to job info. |
| `Handlers.SchedulerHandler.ResetConnection` | airbyte-server/src/main/java/io/airbyte/server/handlers/SchedulerHandler.java:272-285 | Lookups happen in order: sync, destination, destination definition. Otherwise the response is the result of the create-or-get-active reset call on the resolved records and image, converted to job info. |
| `Handlers.SchedulerHandler.GetSpecFromSourceDefinitionId` | airbyte-server/src/main/java/io/airbyte/server/handlers/SchedulerHandler.java:298-303 | A missing definition is not-found. Otherwise the result is the spec fetched for the definition's image. |
| `Handlers.SchedulerHandler.GetSpecFromDestinationDefinitionId` | airbyte-server/src/main/java/io/airbyte/server/handlers/SchedulerHandler.java:305-310 | The same for a destination definition. |
| `HandlerProperties.CheckFromSourceIdReportsJobFailure` | airbyte-server/src/main/java/io/airbyte/server/handlers/SchedulerHandler.java:106-115 | A job failure while checking a stored source is reported, not thrown: FAILED, no message, and the failed job's information. |
| `HandlerProperties.CheckFromSourceCreateReportsOutput` | airbyte-server/src/main/java/io/airbyte/server/handlers/SchedulerHandler.java:117-130 | The response's status and message are the job's output. With no output, the response is FAILED with no message. |
| `HandlerProperties.CheckFromSourceIdAgreesWithCreate` | airbyte-server/src/main/java/io/airbyte/server/handlers/SchedulerHandler.java:106-130 | Checking a stored source equals checking a creation request made of its definition id and configuration. This needs the client to answer the same for the source and its transient copy. |
| `HandlerProperties.CheckFromDestinationIdAgreesWithCreate` | airbyte-server/src/main/java/io/airbyte/server/handlers/SchedulerHandler.java:146-168 | The same for a destination. |
| `HandlerProperties.SynchronousLookupsPrecedeJob` | airbyte-server/src/main/java/io/airbyte/server/handlers/SchedulerHandler.java:106-207 | When a lookup fails, every stored and creation-request check and discover flow gives the same not-found failure whatever the synchronous job client: the answer does not depend on any job. |
| `HandlerProperties.UpdateLookupsPrecedeJob` | airbyte-server/src/main/java/io/airbyte/server/handlers/SchedulerHandler.java:132-183 | In both update-then-check flows, a failed merge or a failed spec lookup gives the same failure whatever the synchronous job client: the answer does not depend on any job. A merged definition missing from the store is a not-found failure. |
| `HandlerProperties.UpdateCheckRejectsInvalidSource` | airbyte-server/src/main/java/io/airbyte/server/handlers/SchedulerHandler.java:132-144 | An invalid merged configuration yields the validator's violations, whatever the synchronous job client: the answer does not depend on any check job. |
| `HandlerProperties.UpdateCheckRejectsInvalidDestination` | airbyte-server/src/main/java/io/airbyte/server/handlers/SchedulerHandler.java:170-183 | The same for a destination. |
| `HandlerProperties.UpdateCheckUsesValidatedSourceImage` | airbyte-server/src/main/java/io/airbyte/server/handlers/SchedulerHandler.java:132-144 | After validation, the check runs a transient source with the merged configuration, on the same image the spec was fetched from. Because the model reads one snapshot of the repository, the second definition lookup sees the same record and cannot fail, so only I/O or fatal errors remain. |
| `HandlerProperties.UpdateCheckUsesValidatedDestinationImage` | airbyte-server/src/main/java/io/airbyte/server/handlers/SchedulerHandler.java:170-183 | The same for a destination, again within one snapshot of the repository. |
| `HandlerProperties.SpecificationEndpointsMatchValidationSchema` | airbyte-server/src/main/java/io/airbyte/server/handlers/SchedulerHandler.java:220-242 | The specification endpoints publish exactly the schema and URL that the update flows validate against, and fail exactly when those fetches fail. |
| `HandlerProperties.AsynchronousLookupsPrecedeJob` | airbyte-server/src/main/java/io/airbyte/server/handlers/SchedulerHandler.java:248-285 | When a sync or reset lookup fails, the result is not-found whatever the asynchronous job client: the answer does not depend on any job. |
| `HandlerProperties.SyncReturnsTheClientsJob` | airbyte-server/src/main/java/io/airbyte/server/handlers/SchedulerHandler.java:262-269 | Once all five lookups resolve, the response succeeds exactly when the create-or-get-active sync call on the resolved records does, and it is that call's job, new or already active. |
| `HandlerProperties.ResetReturnsTheClientsJob` | airbyte-server/src/main/java/io/airbyte/server/handlers/SchedulerHandler.java:282-284 | Once the sync, destination and destination definition resolve, the response succeeds exactly when the create-or-get-active reset call on the resolved records does, and it is that call's job. |
| `HandlerProperties.ResetNeverReadsSource` | airbyte-server/src/main/java/io/airbyte/server/handlers/SchedulerHandler.java:272-285 | A reset's answer does not depend on the stored sources, the source definitions or the sync-job call. |

## Left out

- Idempotency and atomicity of create-or-get-active live in the scheduler's job client, which is not part of this model. The model proves only that the response is the converted result of a create-or-get-active call on the resolved records.
- `Handlers.SchedulerHandler.SyncConnection`, `Handlers.SchedulerHandler.ResetConnection`: the job clients are pure functions, so how many times a client is called is not observable. The model does not promise that a sync or reset calls its client exactly once.
- `HandlerProperties.SynchronousLookupsPrecedeJob`, `HandlerProperties.UpdateLookupsPrecedeJob`, `HandlerProperties.UpdateCheckRejectsInvalidSource`, `HandlerProperties.UpdateCheckRejectsInvalidDestination`, `HandlerProperties.AsynchronousLookupsPrecedeJob`: "no job is submitted" is stated as the answer not depending on the job client. The clients are pure functions, so a call whose result is thrown away cannot be seen, and the model does not promise that the client is never called.
- The public constructor that builds default collaborators (`SchedulerHandler.java:81-89`) is left out. Only the constructor that receives all six is modelled.
- The configuration repository's own I/O and validation failures are left out. Only a missing key fails, with ConfigNotFoundException.
- `DockerUtils.getTaggedImageName` is not shown. It is modelled as repository + ":" + tag (`GetTaggedImageName`). No proof depends on that format, only on the function being deterministic.
- Throwables that are not Exceptions (`java.lang.Error`) pass through `executeSynchronousJob` unwrapped, since `catch (Exception e)` does not catch them. They are not modelled.
- The repository is one snapshot for the whole request. So the two reads of a definition in the update-then-check flows (`SchedulerHandler.java:136` then `:143`, and `:175` then `:182`) see the same record. A concurrent delete or image-tag change between those reads is not modelled.
- The spec fetcher, JSON-schema validator, configuration merger and both job clients are arbitrary functions. They block, run containers, enforce timeouts and may run concurrently; none of that is modelled. The merger's promise to keep the definition link is not assumed.
- The converters (`JobConverter`, `JobMetadataConverter`, `CatalogConverter`, `Enums.convertTo`, `documentationUrl().toString()`) keep their input instead of copying fields.
- Response objects are built fresh and filled through setters. The model builds them as values, which loses nothing, because no other code holds them while they are built.
- Null is modelled only where this layer handles it: the supplier's return value, the check message and the discover catalog. Other nulls, and the NullPointerException they would raise, are left out.
- The octavia CLI's connector-definition listing wraps a generated API client. Its logic is not in this layer, so it is left out.
