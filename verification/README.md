# Verification of the serverless platform's control plane

This project models the parts of the platform that decide what runs, what is shown and who is
let in, and proves what they keep:

- **The deploy pipeline** (`Model`, `Tables`, `Cluster`, `Pipeline` and the `Pipeline…` modules).
  API calls, the request stream, the single worker, the relational tables and the cluster form one
  state machine. `Pipeline.Next` is one atomic statement, publish, cluster call or settlement of one
  party; a run is any finite sequence of events, so it interleaves any number of API calls with the
  worker's deliveries, failures, crashes, restarts, sweeps and redeliveries. Over all runs:
  where every request is and what its row reads (`PipelineTracking`, `PipelineResting`,
  `PipelineConservation`, `PipelineCompensation`), consistent tables and faithful requests
  (`PipelineTables`), the status lifecycle (`PipelineStatus`, `PipelineSafety`), what attempts and
  retries come to (`PipelineExecute`, `PipelineRetries`, `PipelineDelivery`), the sweep
  (`PipelineSweep`, `PipelineRecovery`), runnable rows (`PipelineValidity`) and what updates must not
  change in them (`PipelineContent`), what the cluster runs (`PipelineCluster`, `PipelineConvergence`,
  `PipelineDivergence`) and what is announced (`PipelineEvents`, `PipelineAnnouncements`);
  `PipelineWitnesses` holds the remaining concrete runs.
- **The same operations in the form they have in the source** (`Database`, `Deployer`,
  `Worker`, `FunctionService`): classes whose methods change the store, the cluster, the message and the
  published events step by step, each proved to do what the protocol's steps do.
- **PromQL tenant scoping** (`Promql`, `PromqlMeaning`, `PromqlWalk`): a denotational semantics over
  labelled series with every operator left arbitrary, the rewriting as a function, and the in-place
  walk over selector objects proved against it.
- **The token bucket** (`RateLimit`), with its exact min-plus characterisation.
- **The per-user stream cap** (`SseLimit`, `SseMiddleware`): every atomic operation is one step of
  any number of interleaved requests, and the counter wraps at 32 bits.
- **The two stream loops** (`DeployEvents`, `LogWindows`).

## What the proofs found

Several properties that the code or its tests suggest do not hold of all runs. Each is stated with
its exact condition, and with a concrete run or input.

- **The status lifecycle** (any→building→deploying→running, active→failed) can be broken: the worker
  starts while a Create has inserted its deployment but not published it, the sweep deploys the row,
  the publish then fails, and the compensating write turns a running row into a failed one
  (`PipelineSafety.SweepRaceBreaksLifecycle`). `LifecycleIff` says exactly which runs keep it, and
  `LifecycleIfCompensatedInTime` gives a guard the API could evaluate: compensate only a row with no
  start time.
- **A compensated deployment** does not always stay as the API left it: a sweep that had listed the
  row before goes on to build it (`PipelineWitnesses.ListedThenRebuilt`). Its row reads `failed to
  queue deploy` exactly as long as the worker writes nothing more to it
  (`PipelineCompensation.QueueTextIff`), which is always so if no sweep had listed it
  (`UnlistedReadsQueueText`). The converse is not true: in `SweepRaceBreaksLifecycle` the sweep had
  listed the row and was done with it, and the row reads the queueing error.
- **A request can be published for a row that is gone**, when a Delete lands between the insertion of
  the deployment and the publish (`PipelineWitnesses.PublishedWithoutRow`); the row is there exactly
  if no step since its insertion deleted its function or workspace
  (`PipelineConservation.RowThereIff`).
- **Convergence** of the cluster to the tables fails in three ways, each ending with every message
  acknowledged and other code deployed than the row has: a Nak'd older request is redelivered after a
  newer one (`PipelineDivergence.OvertakenRequestDiverges`), an update whose publish fails keeps its
  rewritten row (`UnpublishedUpdateDiverges`), and two overlapping updates write in one order and
  publish in the other (`OverlappingUpdatesDiverge`). Each of the three runs keeps to every other
  hypothesis. `PipelineConvergence.Convergence` shows that ruling these out, with the function not
  deleted, is enough, whatever else fails, crashes, is redelivered or swept;
  `AcknowledgedIsCurrentIff` says for any single message exactly when it leaves the cluster current,
  and `PipelineCluster.RunsRowIff` says for any run at all, deletes included, exactly when the cluster
  runs a row.
- **A message can be lost** although the handler's threshold equals `MaxDeliver`, exactly when its
  fourth delivery ends in a crash, an unreadable delivery count or a failed settlement
  (`PipelineDelivery.StrandedIff`).
- **Validity** of function rows can be broken by a Delete and a Create of another deploy type between
  an Update's read and its write (`PipelineValidity.InterleavedDeleteBreaksRow`), and only so
  (`RequestsAreRunnable`, `RunnableWithoutDeletes`).
- **A managed function's image** (and a byoi function's code) can change although no update may give
  one: an update reads the function, it is deleted and created again with an image, and the update
  writes back what it read (`PipelineContent.AnewLosesImage`, a run in which every update hits a row of
  the type it validated). It never changes otherwise (`FixedContentIff`), and so not without deletes
  (`FixedWithoutDeletes`).
- **Scoping changes the meaning** of `absent` and `absent_over_time` when it appends a matcher to their
  argument, and of nothing else (`PromqlMeaning.MeaningPreservedIff`, `AbsentChangesMeaning`).
- **The stream cap** refuses a user who has no stream open while another refused request has not yet
  undone its increment (`SseLimit.RefusedWithNothingServed`).
- **Deploy events** are cut by a test for `RUNNING` and `FAILED`, while the worker publishes in lower
  case: no event of the worker ever ends a stream (`DeployEvents.WorkerEventsNeverEnd`), over any run
  (`PipelineEvents.RunNeverEndsStream`). A lost acknowledgement has a client told `running` and next
  `building` (`RedeploymentRunsOn`). The sweep announces no failure at all
  (`Worker.DeployWorker.RecoverActiveDeployments`).
- **`completed_at` and `error`** are never cleared, so a running row may still carry an error
  (`PipelineSafety.StampsNeverCleared`, `PipelineWitnesses.RunningWithError`).
- **A log line** whose window's query fails is never shown (`LogWindows.LostWithItsWindow`).

## Hypotheses of the pipeline model

One worker; its status writes and the API's compensating write succeed; a statement is atomic; a call
that fails has no effect, and a publish that fails stores nothing; each delivery raises the delivery
count by one, and a message is delivered at most four times; the database's clock does not go back.
Every other call may fail at every point.

## Model

| member | source | states |
|---|---|---|
| `Model.AcceptedCreateIff` | internal/model/function.go:77-131 | a create request is accepted exactly when its name is a letter, up to 61 letters, digits or hyphens and a letter or digit, and it is managed python or nodejs code of 1 to 1,000,000 bytes, or a byoi python, nodejs or go image |
| `Model.AcceptedUpdateIff` | internal/model/function.go:61-75 | an update is accepted exactly when it gives something, no image for a managed and no code for a byoi function, and at most 1,000,000 bytes of code |
| `Tables.NullRoundTrip` | internal/db/db.go:462-467 | an empty code or image is stored as NULL and reads back as the empty string, and any other text as itself |
| `Tables.NewRowReadsBack` | internal/db/db.go:322-334 | a function written and read back is the function that was asked for |
| `Tables.FindFunction` | internal/db/db.go:336-350 | a lookup finds nothing exactly when no row has that workspace and name, and otherwise a row that has them |
| `Tables.FindWorkspace` | internal/db/db.go:176-189 | a lookup by slug finds nothing exactly when no workspace has it, and otherwise one that does |
| `Tables.InsertWorkspaceKeeps` | internal/db/db.go:148-160 | creating a workspace leaves one with that slug, keeps foreign keys closed and slugs unique, and leaves every existing row there and as it was |
| `Tables.DeleteWorkspaceKeeps` | migrations/000001_initial_schema.up.sql:215-216 | deleting a workspace removes it with its functions and deployments, leaves every row of another workspace as it was, and leaves no dangling key |
| `Tables.InsertFunctionKeeps` | internal/db/db.go:322-334 | inserting a function that violates no constraint keeps names unique per workspace and keys closed |
| `Tables.PutFunctionKeeps` | internal/db/db.go:429-445 | an update changes code, image and visibility but never a row's identity, runtime or deploy type |
| `Tables.DeleteFunctionKeeps` | migrations/000002_add_deployments.up.sql:9-12 | deleting a function with its cascade leaves no deployment without its function |
| `Tables.InsertDeploymentKeeps` | internal/db/deployment.go:23-35 | a deployment of an existing function, inserted with its workspace, keeps deployments in their function's workspace |
| `Tables.SetStatusKeeps` | internal/db/deployment.go:64-76 | a status write keeps every key, changes no other row, and leaves the tables as they are if the row is gone |
| `Tables.SetErrorKeeps` | internal/db/deployment.go:78-84 | so does an error write |
| `Tables.CountMatchesListing` | internal/db/deployment.go:102-122 | the un-joined COUNT equals the size of the joined listing, and the joined function is the workspace's own |
| `Database.DB.GetWorkspaceBySlug` | internal/db/db.go:176-189 | the workspace with that slug, if there is one |
| `Database.DB.GetWorkspaceByID` | internal/db/db.go:162-174 | the workspace with that id, if there is one |
| `Database.DB.GetFunction` | internal/db/db.go:336-350 | the one row of that workspace and name, if there is one |
| `Database.DB.CreateFunction` | internal/db/db.go:322-334 | the row is inserted with NULL for empty code or image, and refused exactly when the statement fails, the workspace is gone or the name is taken |
| `Database.DB.UpdateFunction` | internal/db/db.go:429-445 | code, image and visibility of the row with that workspace and name are replaced and the row returned; no such row is no error and changes nothing |
| `Database.DB.RemoveFunction` | internal/db/db.go:447-460 | the row and its deployments go, and it is an error exactly when the statement fails or there is no such row |
| `Database.DB.CreateDeployment` | internal/db/deployment.go:23-35 | a queued row with the next id, refused when its function or workspace is gone |
| `Database.DB.UpdateDeploymentStatus` | internal/db/deployment.go:64-76 | the status is written, with a start time for building and a completion time for running and failed, on that row only |
| `Database.DB.UpdateDeploymentError` | internal/db/deployment.go:78-84 | the row becomes failed with that error and a completion time, and no other row moves |
| `Cluster.ServiceNameInjective` | internal/deployer/knative.go:500-506 | two functions share a service or ConfigMap name exactly when they share their name; the prefix strips off |
| `Cluster.DeployedReads` | internal/deployer/knative.go:298-447 | the cluster running a function means, field by field: its service has the client's image, or the image of its runtime over the mounted ConfigMap of its code; the digest of code and image; its labels; its visibility annotation; and its ConfigMap has the file its runtime loads |
| `Cluster.ServiceEnsured` | internal/deployer/knative.go:183-207 | a successful write leaves the service asked for, and no other service or ConfigMap appears, goes or changes |
| `Cluster.CodeEnsured` | internal/deployer/knative.go:298-324 | a successful write leaves exactly the function's code, and no other ConfigMap or service appears, goes or changes |
| `Cluster.DeploySucceeds` | internal/deployer/knative.go:172-208 | after a successful Deploy the cluster runs that function, whatever was there before, and the stored objects read so field by field |
| `Cluster.DeployedIffAlike` | internal/deployer/knative.go:172-208 | after a successful Deploy another version of the function is what runs exactly when nothing that is written tells the two apart |
| `Cluster.DeployKeepsOthers` | internal/deployer/knative.go:172-208 | a Deploy, failed or not, leaves every other function deployed as it was |
| `Cluster.ServiceIsLastDeployed` | internal/deployer/knative.go:172-208 | over any sequence of calls with any failures a service is what the last successful call for its namespace and name asked for, with unrelated annotations surviving; without one it is untouched |
| `Cluster.CodeIsLastWritten` | internal/deployer/knative.go:298-324 | over any sequence of calls a ConfigMap holds the code of the last call that wrote it, even if that call failed afterwards |
| `Cluster.FailedDeployKeeps` | internal/deployer/knative.go:172-208 | a failed Deploy changes no service or namespace, and no ConfigMap but its own appears, goes or changes |
| `Cluster.DeployTwice` | internal/deployer/knative.go:172-208 | repeating a successful Deploy succeeds and changes nothing |
| `Cluster.ReadBack` | internal/deployer/knative.go:449-456 | reading a deployed service back recovers name, runtime and deploy type |
| `Cluster.ValidFunctionRuns` | internal/deployer/knative.go:377-447 | a validated function gets the client's non-empty image or, if managed, its own runtime's image over a mounted file handler.py or index.js holding its code |
| `Deployer.KnativeDeployer.EnsureNamespace` | internal/deployer/knative.go:55-74 | the namespace exists after success; a refusal changes nothing and is returned |
| `Deployer.KnativeDeployer.EnsureConfigMap` | internal/deployer/knative.go:298-324 | the read-modify-write changes the objects and returns the error that the cluster model says, over every outcome of its two requests |
| `Deployer.KnativeDeployer.Deploy` | internal/deployer/knative.go:172-208 | objects and error are those of the cluster model over every outcome of the requests, and on success the objects read as the function asks, field by field, and the URL returned is the stored service's |
| `Deployer.KnativeDeployer.Delete` | internal/deployer/knative.go:236-256 | the service goes first, then a managed function's code; a missing service is an error that changes nothing |
| `Deployer.DeployThenDelete` | internal/deployer/knative.go:236-256 | Deploy followed by Delete leaves no trace of the function and moves nothing else |
| `PipelineTracking.NextTracked` | internal/service/function.go:90-115 | one step of any party keeps every deployment in exactly one place: held by a call, carried by a message, compensated or abandoned |
| `PipelineConservation.RowsAndRequestsConserved` | internal/service/function.go:90-115 | in every reachable state each deployment handed out is held by exactly one call or carried by exactly one message, or its call gave up on it, exclusively; a carried request says what its call wrote; a row is there exactly if its function is; and a compensated row that is there has an error and, unless it was started, reads failed for a reason that needs no execution |
| `PipelineConservation.StepRemoves` | internal/db/db.go:447-460 | a function that exists goes in exactly the steps that delete it or its workspace, and one that is gone does not come back |
| `PipelineConservation.RowThereIff` | internal/service/function.go:95-115 | from its insertion on, and so when its request is published, a deployment's row is there exactly if no step since then deleted its function or workspace |
| `PipelineResting.RestingStays` | internal/worker/deploy.go:126-259 | a row that is not active and not in the worker's hands, with its request compensated or settled, reads the same after any step as long as it is there |
| `PipelineCompensation.StepAfterCompensation` | internal/service/function.go:111-115 | after the compensation only the worker writes to the row, and then it no longer reads failed with the queueing error |
| `PipelineCompensation.QueueTextIff` | internal/service/function.go:111-115 | over any run a compensated row that is there reads failed with the queueing error exactly if the worker has not written to it since |
| `PipelineCompensation.UnlistedReadsQueueText` | internal/worker/deploy.go:213-258 | a row that no sweep had listed before it was compensated reads so for good |
| `PipelineWitnesses.PublishedWithoutRow` | internal/service/function.go:95-111 | there is a run, a Delete between a deployment's insertion and its publish, that leaves a request in the stream without its row |
| `PipelineWitnesses.ListedThenRebuilt` | internal/worker/deploy.go:213-258 | there is a run, a sweep listing the row before its compensation, after which the compensated row is building |
| `PipelineTables.NextGrounded` | internal/service/function.go:227-255 | one step of any party keeps the tables consistent and every request equal to what its call wrote |
| `PipelineTables.NextSuccessor` | internal/db/db.go:429-445 | over one step of any party a row that stays keeps its identity, and new ids are taken from the sequences |
| `PipelineTables.TablesStayConsistent` | migrations/000002_add_deployments.up.sql:9-12 | in every reachable state foreign keys are closed, slugs and names unique, and each deployment is in its function's workspace |
| `PipelineTables.SweepRebuildsRequest` | internal/worker/deploy.go:241-251 | if a function row reads as when its request was made, the request the sweep rebuilds equals the published one, NULLs included |
| `PipelineStatus.StepEdges` | internal/worker/deploy.go:165-201 | from a reachable state a step keeps to the lifecycle exactly when it does not compensate a running row or write deploying or running over a failed one |
| `PipelineStatus.CompensatedLively` | internal/service/function.go:111-115 | the compensating write keeps the lifecycle exactly when the row it finds is not running |
| `PipelineSafety.LifecycleIff` | internal/worker/deploy.go:126-259 | a whole run keeps the lifecycle exactly when no step of it overwrites a finished row |
| `PipelineSafety.LifecycleIfCompensatedInTime` | internal/service/function.go:111-115 | a run in which no call compensates a row with a start time keeps the lifecycle |
| `PipelineSafety.NewRowsAreQueued` | internal/db/deployment.go:23-35 | a row that appears in any step is queued |
| `PipelineSafety.ReachedFrom` | internal/worker/deploy.go:165-201 | in a run that keeps the lifecycle a deploying or running row has held that status since the step along its only edge |
| `PipelineSafety.RunningWasDeployed` | internal/worker/deploy.go:165-201 | in such a run a running row was deploying right before, and building right before that |
| `PipelineSafety.RowFieldsHold` | internal/db/deployment.go:64-84 | in every reachable state building and deploying rows have a start time, running rows finished no earlier than they started, failed rows have a completion time and a reason, and one never started names why |
| `PipelineSafety.StampsNeverCleared` | internal/db/deployment.go:64-84 | over any stretch of any run a start time, completion time or error once written is never taken back |
| `PipelineWitnesses.RunningWithError` | internal/db/deployment.go:64-84 | there is a run, a sweep failing a row whose message then succeeds, that leaves it running with an error |
| `PipelineSafety.SweepRaceBreaksLifecycle` | internal/worker/deploy.go:213-258 | there is a run that breaks the lifecycle: a sweep lists and deploys a row whose Create has not published, the publish fails, and the compensation turns the running row into one failed with the queueing error |
| `PipelineExecute.FinishIsExecuted` | internal/worker/deploy.go:165-201 | the protocol's small steps, left alone, add up to executeDeploy taken whole, for every pattern of failures |
| `PipelineExecute.ProcessedIsRun` | internal/worker/deploy.go:126-163 | one delivery handled whole is a run of the protocol in which only the worker moves |
| `PipelineExecute.RetriesAlone` | internal/worker/deploy.go:139-162 | with nothing else going on, for every failure pattern a message is acked on its first successful attempt with its row running, or termed on the fourth failure with its row failed and holding the last error, and never out of deliveries while open |
| `PipelineExecute.RetriedIsRun` | internal/worker/deploy.go:112-124 | those deliveries, with nothing else going on, are a run of the protocol |
| `PipelineRetries.StepAccounted` | internal/worker/deploy.go:126-163 | any step of any party keeps a message's deliveries, settlement and row accounted for by how its attempts ended |
| `PipelineRetries.AnsweredMessages` | internal/worker/deploy.go:126-163 | in every reachable state, with crashes, sweeps, redeliveries and deletes: a message's delivery count is the number of its attempts; an acked one ended with a successful attempt and its row, if there, reads running; a termed one had four, the last failed, and its row, if there, reads failed with the error of that attempt |
| `PipelineRetries.RetryOutcome` | internal/worker/deploy.go:139-162 | over any run in which the worker neither dies on the message, nor cannot settle it, nor cannot read its count after the fourth failure, with anything else in between: a message is acked exactly when an attempt succeeded, termed exactly when four failed, and otherwise open with deliveries left; its row, if there, reads accordingly |
| `PipelineDelivery.StepStrands` | internal/worker/deploy.go:139-162 | one step leaves a message undeliverable and unsettled exactly when it loses its fourth delivery |
| `PipelineDelivery.StrandedIff` | internal/worker/deploy.go:67-78 | in any run a message has used up its deliveries without an answer exactly when its last delivery, the fourth by the consumer's limit, met a crash, a failed settlement or an unreadable count |
| `PipelineDelivery.GarbageNeverAcked` | internal/worker/deploy.go:126-132 | over any run a message whose body does not decode is never executed and never acknowledged |
| `PipelineDelivery.GarbageIsTermed` | internal/worker/deploy.go:126-132 | its delivery terminates it as soon as it can be settled, and touches nothing else |
| `PipelineSweep.SweptIsRun` | internal/worker/deploy.go:213-258 | a sweep left alone takes the worker from its listing to idle, row by row |
| `PipelineSweep.SweepIsTotal` | internal/worker/deploy.go:213-258 | for any rows and any outcomes every listed row ends running, or failed with the text of what went wrong, and nothing unlisted moves |
| `PipelineSweep.ExecutedCluster` | internal/worker/deploy.go:181-193 | a successful attempt brings its function up, and no attempt disturbs another function |
| `PipelineSweep.SweepDeploysCurrent` | internal/worker/deploy.go:232-256 | after the last swept attempt for a function succeeds, the cluster runs its current row rather than the original payload |
| `PipelineRecovery.RecoveryLeavesNoneUnfinished` | internal/worker/deploy.go:213-258 | from any reachable state in which the worker starts, whatever API calls run meanwhile: once it has swept, every deployment that was queued, building or deploying is running, failed with an error, or gone |
| `PipelineRecovery.CrashIsRecovered` | internal/worker/deploy.go:100-106 | the same after a crash in any reachable state |
| `PipelineRecovery.RecoveryIsTotal` | internal/db/deployment.go:143-173 | the sweep alone does so for exactly those rows: every other row reads as before |
| `PipelineRecovery.ListingExists` | internal/db/deployment.go:143-153 | whatever the tables hold, there is a listing of them to start from |
| `PipelineRecovery.SmoothRecovery` | internal/worker/deploy.go:228-256 | if nothing fails the sweep leaves all those rows running, and each of their functions running in its workspace's namespace just as its row reads |
| `PipelineRecovery.SweepsOldestFirst` | internal/db/deployment.go:152 | in every reachable state the deployment a sweep is on was created no later than any it has still to take up |
| `PipelineValidity.UpdateRunnableIff` | internal/service/function.go:214-227 | an update leaves all rows runnable exactly when its content fits the deploy type of the row it hits |
| `PipelineValidity.StepRunnable` | internal/service/function.go:196-227 | a step keeps rows, calls and requests runnable unless an update hits a row of another deploy type than it validated |
| `PipelineValidity.RequestsAreRunnable` | internal/model/function.go:61-131 | without such a step every row, every queued request and every request a sweep could build gives a pod with an image and, if managed, a mounted file with its code |
| `PipelineValidity.IdentityNeverChanges` | internal/db/db.go:429-445 | over any stretch of any run a function keeps its workspace, name, runtime and deploy type |
| `PipelineValidity.RunnableWithoutDeletes` | internal/service/function.go:196-227 | over all creates and updates, however interleaved, no such step occurs and every row stays runnable |
| `PipelineValidity.InterleavedDeleteBreaksRow` | internal/service/function.go:202-227 | there is a run in which an update leaves a byoi row without an image |
| `PipelineContent.StepFixedIff` | internal/service/function.go:206-227 | a step keeps every managed function's image and every byoi function's code exactly when it is not an update hitting another row than it read, with another image or code |
| `PipelineContent.FixedContentIff` | internal/service/function.go:206-227 | all steps of a run keep them exactly when none is such an update |
| `PipelineContent.FixedContentNeverChanges` | internal/model/function.go:66-71 | and then they are the same over any stretch of the run |
| `PipelineContent.FixedWithoutDeletes` | internal/service/function.go:202-227 | over creates and updates alone no such update occurs |
| `PipelineContent.AnewLosesImage` | internal/service/function.go:202-227 | there is a run, without any update of a row of another type, in which a managed function loses its image |
| `PipelineConvergence.StepConverges` | internal/worker/deploy.go:154-201 | an orderly step keeps the convergence invariant, with the worker free to fail, crash, restart and sweep |
| `PipelineConvergence.Convergence` | internal/service/function.go:196-270 | after any orderly run with nothing owed, the last request says what the row says, and once it is acked the cluster runs exactly that row |
| `PipelineConvergence.AcknowledgedIsCurrentIff` | internal/worker/deploy.go:139-162 | from any state the attempt that gets a message acked leaves the function running its row exactly when the request cannot be told apart from the row |
| `PipelineCluster.ClusterIsLastWritten` | internal/deployer/knative.go:172-256 | over any run a function's service and code are what the last write of each put there, gone if that was a delete, and as at first if there was none |
| `PipelineCluster.RunsVersionIff` | internal/deployer/knative.go:172-208 | over any run the cluster runs a version of a function exactly if the last service write asked for the same service and, if managed, the last code write wrote the same code |
| `PipelineCluster.RunsRowIff` | internal/worker/deploy.go:181-193 | in particular it runs the function's current row exactly if those writes cannot be told apart from the row |
| `PipelineCluster.NamespaceGone` | internal/deployer/knative.go:47-53 | dropping a namespace takes it and all objects in it, and nothing of another |
| `PipelineCluster.WorkspaceGone` | internal/handler/workspace.go:122-128 | deleting a workspace takes its row and its functions' rows and then, if that works, its namespace with all that runs in it |
| `PipelineDivergence.OvertakenRequestDiverges` | internal/worker/deploy.go:154-157 | there is a run in which only deliveries are out of turn, an older request's second one after a newer request, that acks everything and leaves the function not running its row; every other clause of the convergence hypothesis holds throughout |
| `PipelineDivergence.UnpublishedUpdateDiverges` | internal/service/function.go:227-255 | so is there one in which only a publish fails |
| `PipelineDivergence.OverlappingUpdatesDiverge` | internal/service/function.go:202-251 | and one in which only an update begins while another is in progress |
| `PipelineDivergence.SmoothlyProcessed` | internal/worker/deploy.go:165-201 | an attempt in which no call fails acks its message and deploys its request |
| `Worker.AnnouncedIsProgress` | internal/worker/deploy.go:165-201 | everything executeDeploy announces is a status of the worker other than failed |
| `Worker.DeployWorker.ExecuteDeploy` | internal/worker/deploy.go:165-201 | tables, cluster and error are those of the whole-attempt function; exactly the statuses reached are published, as building, deploying and running, each with the request's deployment and function, and running with the stored service's URL and no error |
| `Worker.DeployWorker.HandleMessage` | internal/worker/deploy.go:126-163 | an undecodable body is termed and changes nothing; otherwise world and reply are as the protocol handles the delivery, and failed, with the error and no URL, is published exactly when the message is termed, and says what the row holds |
| `Worker.DeployWorker.RecoverActiveDeployments` | internal/worker/deploy.go:213-259 | the loop leaves the world the protocol's sweep leaves for every outcome of lookups and attempts, and publishes no failure |
| `FunctionService.EnqueueAlone` | internal/service/function.go:95-115 | the protocol's statements after the row write come to a deployment row and its request, or to a compensated row and none |
| `FunctionService.CreateAlone` | internal/service/function.go:72-95 | the protocol's statements of a create that is not stopped come to its row and a deployment to queue |
| `FunctionService.CreateStopped` | internal/service/function.go:73-93 | a create stopped by validation, a missing workspace, a taken name or a failed statement leaves nothing |
| `FunctionService.UpdateAlone` | internal/service/function.go:196-235 | the protocol's statements of an update that is not stopped come to the rewritten row and a deployment to queue |
| `FunctionService.UpdateStopped` | internal/service/function.go:197-233 | an update stopped by a missing workspace or function, validation or a failed statement leaves nothing |
| `FunctionService.DropAlone` | internal/deployer/knative.go:236-256 | the protocol's statements that drop a service and its code come to the deployer's Delete |
| `FunctionService.FunctionService.WorkspaceID` | internal/service/function.go:60-70 | the id of the workspace with that slug, if there is one |
| `FunctionService.FunctionService.CheckCreate` | internal/service/function.go:73-88 | a create passes its checks exactly when the two lookups work, the request is valid, the workspace exists and the name is free |
| `FunctionService.FunctionService.QueueDeployment` | internal/service/function.go:235-255 | what the protocol's enqueue, publish and compensate steps leave; a deployment is answered exactly when its row and its request, spelt out, are all that was added |
| `FunctionService.FunctionService.Create` | internal/service/function.go:72-129 | left alone it leaves what the protocol's steps of a create leave for every pattern of failures; it is accepted exactly when every statement works, the request is valid, the workspace exists and the name is free; then the row, its deployment and its request, spelt out column by column, are all that was added |
| `FunctionService.FunctionService.Update` | internal/service/function.go:196-270 | as above for an update: accepted exactly when every statement works, the function is there and the change is one its deploy type allows; then its row has what the change gives and what it had for the rest |
| `FunctionService.FunctionService.Delete` | internal/service/function.go:272-288 | left alone it leaves what the protocol's steps of a delete leave; it is done exactly when the statements work and the function is there, and the row goes even if the service cannot be dropped |
| `Promql.AcceptedIff` | internal/handler/promql_inject.go:31-68 | a query is accepted exactly when the workspace is given, every selector names one of the five metrics, and its first workspace matcher, if any, pins that workspace |
| `Promql.ScopeShape` | internal/handler/promql_inject.go:49-63 | the rewriting changes no operator, constant, range, offset or modifier, keeps every selector in place, and at most appends one matcher to those that had none |
| `PromqlMeaning.InjectTwice` | internal/handler/promql_inject.go:49-63 | the result is accepted again and unchanged |
| `PromqlMeaning.MatchersSelect` | internal/handler/promql_inject.go:53-63 | a matcher selects the series that have the label, an absent one being empty, and a negated one all others |
| `PromqlMeaning.PinnedReadsOnlyTenant` | internal/handler/promql_inject.go:25-29 | a query whose selectors are all pinned means the same over the whole database and over its workspace's series |
| `PromqlMeaning.TenantIsolation` | internal/handler/promql_inject.go:11-14 | an accepted query cannot tell apart two databases that agree on the caller's workspace |
| `PromqlMeaning.MeaningPreservedIff` | internal/handler/promql_inject.go:39-69 | for all engines, databases and times the rewritten query means what the original means on the workspace's series exactly when no absent or absent_over_time has as its operand, in any parentheses, a selector without workspace matcher |
| `PromqlMeaning.AbsentChangesMeaning` | internal/handler/promql_inject.go:59-63 | absent over a listed metric is accepted and changes meaning |
| `PromqlWalk.SelectorNode.Visit` | internal/handler/promql_inject.go:40-64 | a visited selector is rejected, left, or given the pin in place |
| `PromqlWalk.InjectWorkspace` | internal/handler/promql_inject.go:30-70 | the early-stopping mutable walk rejects with the first rejection in order, or leaves the tree spelling the scoped query |
| `RateLimit.TokensAreLeastCredit` | internal/ratelimit/ratelimit.go:40-60 | the level offered to a call is the least, over all earlier calls i, of capacity plus refill since i less what was admitted since i |
| `RateLimit.AdmittedIffPayable` | internal/ratelimit/ratelimit.go:55-59 | a price is met exactly when every such credit meets it |
| `RateLimit.WindowBound` | internal/ratelimit/ratelimit.go:40-60 | every window of calls admits at most capacity plus refill times its length |
| `RateLimit.WindowRate` | internal/ratelimit/ratelimit.go:51-53 | that is, capacity plus refill tokens a second |
| `RateLimit.GainInProportion` | internal/ratelimit/ratelimit.go:30-36 | what is refilled is to the configured maximum as the time is to the configured window |
| `RateLimit.TwiceTheMaximum` | internal/ratelimit/ratelimit.go:30-60 | no stretch of calls as long as the configured window admits more than twice the configured maximum |
| `RateLimit.LevelInRange` | internal/ratelimit/ratelimit.go:52-56 | levels stay between zero and capacity |
| `RateLimit.SpacedCallAdmitted` | internal/ratelimit/ratelimit.go:51-58 | a call at least one token's refill after the previous one is never refused |
| `RateLimit.IsolatedStep` | internal/ratelimit/ratelimit.go:44-49 | one call moves its own key's bucket as that key's history says, and no other |
| `RateLimit.Bucket.Draw` | internal/ratelimit/ratelimit.go:51-59 | a bucket is refilled up to capacity and one token is spent if there is one |
| `RateLimit.InMemoryLimiter.constructor` | internal/ratelimit/ratelimit.go:30-36 | the rate refills the whole capacity in one window, and no key has a bucket |
| `RateLimit.InMemoryLimiter.Allow` | internal/ratelimit/ratelimit.go:40-60 | decision and remaining count are told by the credits of this key's own calls alone, over any interleaving of keys |
| `SseLimit.Wrap32` | internal/middleware/sse.go:53-54 | 32-bit addition: in range, and congruent to the sum modulo 2^32 |
| `SseLimit.ClampLimit` | internal/middleware/sse.go:29-35 | the limit is the given one where that is between 1 and the largest 32-bit integer, and the nearer end otherwise |
| `SseLimit.CountedStep` | internal/middleware/sse.go:50-62 | every atomic operation of every request keeps the counter equal to served streams plus increments not yet undone, up to wrap-around |
| `SseLimit.CounterIsExact` | internal/middleware/sse.go:50-62 | in every interleaving a user's counter is that sum, exactly so below 2^31 outstanding |
| `SseLimit.RefusedIff` | internal/middleware/sse.go:53-59 | an increment is refused exactly when served plus in-transit had reached the limit |
| `SseLimit.CapHolds` | internal/middleware/sse.go:53-59 | served streams of a user never exceed the clamped limit while fewer than 2^31 increments of that user are outstanding, however many others have |
| `SseLimit.DrainsToZero` | internal/middleware/sse.go:60-62 | when a user's own requests have all finished the user's counter is zero |
| `SseLimit.UnauthenticatedPasses` | internal/middleware/sse.go:41-48 | in every interleaving a request without a user is let through at once and has no counter |
| `SseLimit.UsersAreIsolated` | internal/middleware/sse.go:50-51 | a user's own view of any run is the run of that user's operations alone |
| `SseLimit.RefusedWithNothingServed` | internal/middleware/sse.go:53-54 | there is a run that refuses a user who has no stream open |
| `SseMiddleware.AtomicInt32.Add` | internal/middleware/sse.go:53-60 | the atomic add wraps and returns the new value |
| `SseMiddleware.ConnectionLimit.Enter` | internal/middleware/sse.go:53-59 | the increment and its comparison are the protocol's step |
| `SseMiddleware.ConnectionLimit.GiveBack` | internal/middleware/sse.go:54-60 | the undoing and the deferred decrement are the protocol's step |
| `DeployEvents.Stream` | internal/handler/deploy_events.go:82-103 | the client gets exactly the decodable events of its deployment, in order, cut after the first that passes the test; it ends on its own exactly when one does |
| `DeployEvents.CutIsUnique` | internal/handler/deploy_events.go:96-102 | that describes one output only |
| `DeployEvents.WorkerEventsNeverEnd` | internal/handler/deploy_events.go:100-102 | on events a worker publishes the cut never happens |
| `DeployEvents.StopsAsIntendedIff` | internal/handler/deploy_events.go:100-102 | on such events the stream stops after the first terminal status exactly when nothing follows it |
| `PipelineEvents.RunNeverEndsStream` | internal/handler/deploy_events.go:96-103 | over any run a subscriber to any deployment is sent all of its events, and none of them ends the stream |
| `PipelineAnnouncements.EventsTell` | internal/worker/deploy.go:165-211 | every event of any run is announced in some step by the worker on that request, names the deployment and the function it was made for, has the fields its status calls for, and says what the row reads after the step, a failure with the row's own error |
| `PipelineEvents.FineExecution` | internal/worker/deploy.go:165-201 | from any state a worker left alone with nothing failing finishes its request and announces the rest of the lifecycle in order |
| `PipelineEvents.RedeploymentRunsOn` | internal/worker/deploy.go:154-163 | there is a run, an acknowledgement lost and the message delivered again, in which a subscriber is sent running and then building |
| `LogWindows.Milliseconds` | internal/handler/logs_proxy.go:179 | nanoseconds become whole milliseconds, rounded toward zero |
| `LogWindows.Flatten` | internal/handler/logs_proxy.go:171-185 | the nested loops produce the lines of the answer, skipping values whose timestamp does not parse |
| `LogWindows.FlattenedInOrder` | internal/handler/logs_proxy.go:171-185 | those lines are every parsable value once, in the order of streams and then of values |
| `LogWindows.Stream` | internal/handler/logs_proxy.go:104-130 | for any ticks and errors the queried windows follow one another from thirty seconds before the start, and the frames are the answers' lines or one comment each |
| `LogWindows.WindowsDisjoint` | internal/handler/logs_proxy.go:104-130 | no instant is in two windows |
| `LogWindows.WindowsCover` | internal/handler/logs_proxy.go:104-130 | every instant from thirty seconds before the start until the last tick is in a window |
| `LogWindows.ShownOnceIff` | internal/handler/logs_proxy.go:106-130 | a line is shown at most once, and once exactly when its window's query was answered with it and its timestamp parses |
| `LogWindows.ShownUnderLimit` | internal/handler/logs_proxy.go:141 | a line in an answered window holding at most 200 lines is shown |
| `LogWindows.LostWithItsWindow` | internal/handler/logs_proxy.go:113-121 | a line in a window whose query failed is never shown |

## Left out

- Worker.DeployWorker.ExecuteDeploy: does not lose status events; a publication that fails is ignored by the code and only removes an event from the list.
- Cluster.ServiceEnsured: does not separate the read from the write of an update, so two deployers interleaving inside one call (and the resource-version conflict that would follow) are not modelled.
- Cluster.ReadBack: does not recover status, URL or times, which the cluster reports.
- RateLimit.TokensAreLeastCredit: does not model rounding; `real` stands for `float64`.
- RateLimit.InMemoryLimiter.constructor: does not take a window of zero, for which the code's rate is infinite or not a number; `real` has neither.
- PromqlMeaning.MeaningPreservedIff: does not cover the parser and printer; it starts and ends at the syntax tree.
- SseLimit.CapHolds: does not hold at 2^31 outstanding increments of one user, where the counter wraps and admits; `CounterIsExact` still says what the counter is.
- PipelineExecute.RetriesAlone: has nothing else happen between the retries; `PipelineRetries.RetryOutcome` has no such hypothesis.
- LogWindows.ShownOnceIff: takes the upstream's windows as half-open and its answers as lines of the log; lines ingested after their window was queried are not in the answer and are not shown.
- FunctionService.FunctionService.Update: is compared with the protocol when no other call interleaves; interleavings are in `Pipeline`.
- Roles, role bindings and the copied pull secret: only whether ensuring them works is kept.
- Tolerations, affinity, pull-secret names and container names of the pod: constants.
- The digest of code and image: an arbitrary function, so no claim depends on it being injective.
- JSON, HTTP, JWT, SQL text, varchar lengths and sequence gaps.
- Failures of the worker's own status writes, which the code ignores: taken not to happen.
- Several worker replicas, acknowledgement timeouts while a worker is still busy, back-off delays, and stream size or age limits.
- Orphaned services: Delete removes the row first and the service best-effort, and the worker does not look at the row again, so a service without a row is reachable and nothing is claimed against it.
- List, Get and GetPublic of the service, pagination and sorting, members, users and health checks: reads and plumbing.
- The response cache: the only store present keeps nothing.
