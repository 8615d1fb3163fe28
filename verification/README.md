# A verified model of the databasus operator

The operator keeps databasus, a backup server with an HTTP API, in step with three kinds of
Kubernetes resources: Storages, Notifiers and DatabaseBackups. This project models its three
reconcilers, the client they call databasus through, the translation from specs to requests
and the generated deep copies, and proves what the operator promises over whole runs: under
user edits, stale caches, failed calls, lost responses, crashes and any interleaving of the
workers.

`dafny verify dfyconfig.toml` checks the project (Dafny 4.11).

## How it is built

- `Resources`, `Conditions`, `Builders`: the resources and requests as values, the condition upsert, and
  the translation. A reconcile reads what its spec refers to one external read at a time; `Plan` lists
  these reads in the order of the code, and `RequestOf` says which request the values read lead to.
- `Requests`, `Outcomes`, `Delivery`: what these amount to, without reference to the builders or to the steps of the
  protocol, with types, reasons, texts and delays written out: which member of a request comes from which
  member of a spec or from which secret, what one call makes the status and the work queue say, and what
  databasus holds for an object that says Ready.
- `Protocol`: the state machine. A `State` holds every version the API server ever committed, what the cache
  shows of them, databasus' records and configs, the secrets, and for each key the call its worker makes next.
  `Apply` gives the effect of one event. Each call of a worker ends in one of three ways: done, failed
  without effect, or with its effect but the response lost. Runs are arbitrary sequences of events.
- `Invariants`, `Inductive`: the invariant of all reachable states and the proof that every event keeps it.
- `Safety`, `Accounting`, `Stages`, `Convergence`, `Stalls`, `Checks`, `Deletions`: the promises. `Locality`, `Calls` and
  `Progress` say what one call leaves alone, where it leads, and how a reconcile advances.
- `Clusters`, `Objects`, `DatabasusApi`, `Secrets`, `Lifecycle`, `Reports`, `StorageController`,
  `NotifierController`, `DatabaseBackupController`: the code in its own imperative form. A `Cluster` is the
  world the code calls into. Before each call anything else may happen; the call itself may only be made where
  the state machine expects exactly this call with exactly these arguments. So each `Reconcile` that
  verifies takes the steps of the state machine, in every interleaving, and the promises hold of it.
- `Client`, `Wire`, `DeepCopies`: how answers are read, what the JSON rules for empty members keep, and
  the separation of copies from originals.

Several lemmas hide definitions that their proofs do not need (`hide`), which keeps them quick.

## Assumptions about the surroundings

1. One worker at a time per key, and one leader. A crash abandons the reconcile under way; the restart
   enqueues the key again.
2. An update writes metadata and spec, a status update writes the status; both commit only if the version
   that was read is still the current one. Writing what is already there makes no new version.
3. Cached reads may be stale but never go backwards, not even across a restart. Of the secrets a state holds only
   what the cache shows of them: setting or dropping one is the moment at which the cache shows it. How far
   that lags behind the secrets themselves is not represented, and nothing proved depends on it.
4. Spec edits and delete requests bump the generation. A delete of an object with finalizers only marks it, and
   it disappears with its last finalizer. Users do not write status and do not strip the operator's finalizer.
5. databasus creates under fresh non-empty IDs, echoes the ID on update, fails updates of missing records,
   applies a call before the client sees it return or not at all, and answers "not found" only when the record is
   missing. It answers a save with 200 and JSON, for a new database with 200 or 201; an error code, or a page
   that is not JSON, means that nothing was saved. In the runs of `Protocol` nobody else edits it; in those of `Deletions` anybody may remove records.
6. `meta.SetStatusCondition` upserts by type and moves the transition time only when the status flips.

Clock values, the texts of errors, the IDs databasus picks and the outcomes of calls are arbitrary.

## What came out differently from what one might expect

- It is not true that without lost responses and failed status writes an object never has two records.
  A reconcile that reads the object from a lagging cache, before the ID was committed, creates a second one.
  `Accounting.TwoRecordsHappen` is such a run, `Accounting.SecondRecordIff` says exactly at which calls it
  happens, and `Accounting.TwoRecords` shows that this reconcile's status write is then bound to be
  refused, so that the write-once ID survives and the second record is counted as lost.
- A storage request does not determine the settings it was made from, unless the type is S3 or SFTP: for every
  other type the settings never leave the cluster (`Builders.StoragePayloadLost`, an equivalence). For S3 and
  SFTP `Builders.StoragePayloadCarried` says what is carried; an SFTP secret that is not named is sent like an
  empty one.
- A healthcheck config need not agree with the spec: it stays at databasus when the spec drops its healthcheck
  section. For a DatabaseBackup that is Ready at its generation and has no section, the config is there if
  and only if some save of it took effect earlier in the run (`Checks.LeftoverCheckIff`), so never, if the
  object never had a section (`Checks.NoSectionNoCheck`), and only the deletion of the database removes it
  (`Checks.CheckGoesWithDatabase`). `Checks.LeftOverExists` is a run from the empty state that ends so.

## Model

| member | source | states |
|---|---|---|
| Inductive.Reachable | internal/controller/databasebackup_controller.go:41-202 | every state that any sequence of events reaches satisfies the invariant |
| Inductive.EventKeeps | internal/controller/databasebackup_controller.go:41-202 | no single event, of a user, the cache, the environment or a worker, breaks the invariant |
| Safety.ReadyMeansSynced | internal/controller/databasebackup_controller.go:130-197 | a committed Ready at the current generation means that record, backup config and healthcheck config at databasus are what the builders yield for the current spec, with values that reconciles of this generation read |
| Safety.ReadyMeansSaved | internal/controller/storage_controller.go:84-108 | the same for the record behind a Storage or a Notifier |
| Delivery.StorageDelivered | internal/controller/storage_controller.go:74-108 | in every run: for a Storage that is Ready for its generation databasus holds, under its ID, the name, type and section of the current spec, with values that the cache once showed for exactly the secrets referred to |
| Delivery.NotifierDelivered | internal/controller/notifier_controller.go:74-108 | the same for a Notifier and the payload of its type |
| Delivery.DatabaseDelivered | internal/controller/databasebackup_controller.go:80-150 | the same for the database of a DatabaseBackup, with the IDs that the cache once showed for its notifiers in order, its password and its TLS material; and its spec asks for no physical backups |
| Delivery.ConfigsDelivered | internal/controller/databasebackup_controller.go:152-174 | the same for its backup config, with the ID that the cache once showed for its storage, and for its healthcheck config |
| Safety.ReadingsAreReal | internal/controller/databasebackup_controller.go:204-297 | every value counted as read was shown by the cache in some earlier state of the run |
| Safety.Histories | internal/controller/databasebackup_controller.go:53-78 | between any two versions of one object: the ID is written once, a marked object keeps its status, observed generations never fall, a released finalizer never comes back |
| Safety.Generations | internal/controller/databasebackup_controller.go:490-499 | observed generation at most the generation, the condition's at least the status', equal whenever Ready is True, and Ready only with an ID |
| Safety.FinalizerSafety | internal/controller/databasebackup_controller.go:53-72 | once the finalizer is gone from an object that had an ID, deletion was requested, and the record does not exist now nor in any later state |
| Safety.NeverAgain | internal/client/database.go:104-181 | an issued record that is gone is never seen again in any continuation |
| Safety.SavesAreProtected | internal/controller/databasebackup_controller.go:54-78 | whatever event creates or changes a record or config: the version worked on and the stored object carry the finalizer, and that version bears no deletion mark |
| Safety.NotifierReferences | internal/controller/databasebackup_controller.go:222-244 | the notifiers of every database record are, in order and with duplicates, records issued for the Notifiers some version of its spec names, still there unless those were asked to be deleted |
| Safety.StorageReference | internal/controller/databasebackup_controller.go:204-220 | the same for the storage of every backup config |
| Safety.ReadingResolves | internal/controller/databasebackup_controller.go:204-220 | an ID that a reconcile resolved belongs to the object of that name in the same namespace |
| Safety.NoLostWakeups | internal/controller/databasebackup_controller.go:41-202 | a worker rests only if its key is queued, or a change is still to be shown, or nothing is left to do for the stored version |
| Accounting.OrphanAccounting | internal/controller/databasebackup_controller.go:133-160 | the live records of an object are, disjointly, the named one, the one in flight and the lost ones; as many are lost as events lost one |
| Accounting.LossesCount | internal/controller/databasebackup_controller.go:142-150 | lost records exist forever, and their number is the number of lossy events of the run |
| Accounting.TwoRecords | internal/controller/databasebackup_controller.go:135-150 | without losses there are at most two records, two exactly while a reconcile from a stale read is under way, whose status write no outcome can commit |
| Accounting.SecondRecordIff | internal/controller/databasebackup_controller.go:135-140 | a save leaves a second record if and only if it creates although a newer version already names a record |
| Accounting.TwoRecordsHappen | internal/controller/storage_controller.go:84-104 | a concrete run without losses that reaches two records |
| Accounting.NotDeleted | internal/controller/storage_controller.go:47-66 | while a worker is past the finalizer checks, no record of its object has been removed |
| Stages.ReasonsTell | internal/controller/databasebackup_controller.go:80-174 | at every point of a reconcile, whatever happens around it, the stage or the Ready reason tells which remote stages took effect |
| Stages.UpdateNotCreate | internal/controller/databasebackup_controller.go:135-150 | a reconcile that reads a version with an ID, or a later one, issues nothing and writes only the record of that ID |
| Outcomes.GetTells | internal/controller/databasebackup_controller.go:44-78 | where a reconcile goes from its Get, with the finalizers by name: error, end, deletion, release, finalizer, or synchronisation |
| Outcomes.GuardTells | internal/controller/databasebackup_controller.go:65-78 | what an accepted finalizer write leaves: the finalizer on or off, the others as they were, nothing else changed |
| Outcomes.ReadTells | internal/controller/databasebackup_controller.go:204-297 | a read goes on with the value of exactly that key of that secret, or the ID of that object if it is Ready, and else is reported as SecretResolutionFailed or DependencyNotReady |
| Outcomes.SaveTells | internal/controller/databasebackup_controller.go:142-174 | a failed save is reported as APISyncFailed, BackupConfigSyncFailed or HealthcheckSyncFailed, under the right ID and with the vitals of before |
| Outcomes.RefreshTells | internal/controller/databasebackup_controller.go:176-189 | health status, backup time and error message each become what databasus reports for them, and stay where it reports nothing or the get failed |
| Outcomes.SuccessTells | internal/controller/databasebackup_controller.go:191-193 | reason, message, ID and vitals of a success |
| Outcomes.ReportTells | internal/controller/databasebackup_controller.go:490-499 | what an accepted status write leaves, member by member: ID, vitals, Ready condition, observed generation, and nothing else changed |
| Outcomes.ReturnTells | internal/controller/databasebackup_controller.go:80-201 | when the work queue is asked to call again: 60, 30, 10 seconds, not at all, or with an error |
| Checks.CheckThereIff | internal/controller/databasebackup_controller.go:163-174 | in every run: a healthcheck config is there if and only if its database is and a save of it has ever taken effect |
| Checks.LeftoverCheckIff | internal/controller/databasebackup_controller.go:163-174 | the exact condition under which a Ready DatabaseBackup without a healthcheck section still has a healthcheck config: some earlier event of the run saved one |
| Checks.DroppedCheckStays | internal/controller/databasebackup_controller.go:163-174 | whenever a synchronised DatabaseBackup drops its section, its next reconciles end Ready and the config stays |
| Checks.LeftOverHappens | internal/controller/databasebackup_controller.go:163-174 | from every state in order such a run exists |
| Checks.LeftOverExists | internal/controller/databasebackup_controller.go:163-174 | a run from the empty state that ends Ready, without a section and with the config |
| Checks.ChecksOutliveTheSpec | internal/controller/databasebackup_controller.go:163-174 | no call of a reconcile whose spec has no healthcheck section touches a healthcheck config |
| Checks.CheckGoesWithDatabase | internal/controller/databasebackup_controller.go:53-63 | a healthcheck config disappears only in the deletion call of its own marked object, with its database |
| Checks.CheckOrigin | internal/controller/databasebackup_controller.go:477-488 | every healthcheck config is that of the section of some version of the object its database was issued for |
| Checks.NoSectionNoCheck | internal/controller/databasebackup_controller.go:163-174 | an object of which no version had a section has no healthcheck config |
| Convergence.Convergence | internal/controller/databasebackup_controller.go:74-201 | from any reachable state with the user's side in order, in every calm run and whatever the interleaving of the controllers: once Storages and Notifiers and then DatabaseBackups have had three up-to-date reconciles each, or asked for no more, all are Ready and synced, and nothing of them changes in any further calm run |
| Convergence.CalmProgress | internal/controller/databasebackup_controller.go:74-201 | the measure over whole calm runs: for every up-to-date reconcile that has ended, the key is one level nearer to being synchronised |
| Convergence.ChainEnds | internal/controller/databasebackup_controller.go:176-201 | a single key whose reads succeed rests after three up-to-date reconciles, from any point of any reconcile, and keeps its history, record and configs in any further calm run |
| Stalls.FailingChainEnds | internal/controller/databasebackup_controller.go:80-128 | a key one of whose reads keeps failing stands still after three up-to-date reconciles, from any point of any reconcile: its status reports the first failing read, and although the worker may retry, its history, record and configs do not change any more |
| Stalls.SlowingRuns | internal/controller/databasebackup_controller.go:80-128 | the measure for such a key over whole calm runs: for every up-to-date reconcile that has ended, it is one level nearer to the standstill |
| Convergence.RestKeeps | internal/controller/databasebackup_controller.go:176-201 | what rests keeps resting at every calm event of whichever key, and neither object, record nor config changes |
| Convergence.NeverStuck | internal/controller/databasebackup_controller.go:176-201 | a key that can be synchronised is never left quiet short of it: a call, an observation or a queued reconcile is always pending, without a timer |
| Convergence.CalmRunExists | internal/controller/databasebackup_controller.go:41-202 | from every reachable state, whatever is under way, there is a calm run in which all keys of a set complete three up-to-date reconciles |
| Deletions.RemovalsLookLikeFailures | internal/client/database.go:126-181 | every run in which others remove records too is matched, in all the operator sees and does, by a run without removals in which calls fail instead |
| Deletions.AnsweredDeleteLeadsOn | internal/controller/databasebackup_controller.go:53-63 | after any run, removals included: the delete leads on to the release if and only if it reached databasus and was answered, and else to a retry in ten seconds |
| Deletions.NeverGivesUp | internal/controller/databasebackup_controller.go:53-72 | a marked object with the finalizer always has a busy worker, a queued key or a pending observation |
| Deletions.ReleaseIsFinal | internal/controller/databasebackup_controller.go:65-70 | after any lost or failed attempts and removals, the first update of a deletion that commits releases the finalizer, and the record is gone for all that follows |
| Deletions.DeletionEnds | internal/controller/databasebackup_controller.go:53-72 | two successful calls, interleaved with anything but writes to this object, delete the record and release the finalizer for good |
| Progress.Shortens | internal/controller/databasebackup_controller.go:41-202 | every call brings a reconcile nearer to its end, whatever its outcome |
| Progress.StaysResolvable | internal/controller/databasebackup_controller.go:74-201 | no call of the worker marks or replaces its object, or touches its spec |
| Safety.ReportedTwice | internal/controller/databasebackup_controller.go:490-499 | reporting the same success again, at whatever time, changes nothing |
| Safety.FailedTwice | internal/controller/databasebackup_controller.go:490-499 | nor does reporting the same failure again, which leaves ID, vitals and observed generation alone |
| Conditions.SetStatusConditionLaws | internal/controller/databasebackup_controller.go:490-499 | the upsert replaces the condition of its type only, keeps the transition time unless the status flips, and is idempotent |
| Client.NotFoundIff | internal/client/client.go:105-120 | the client takes for "missing" exactly the answers with which databasus says so: 404, or 400 with a JSON error that contains the phrase anywhere |
| Client.DeleteSucceedsIff | internal/client/database.go:170-181 | a delete succeeds on 200, 204 and these answers, and on nothing else |
| Client.DeletesCannotWedge | internal/client/client.go:105-120 | for any mix of lost attempts, of refusals and of the two "not found" answers: an attempt succeeds if and only if it reached databasus and was answered, and then the record is gone for all later attempts |
| Builders.CompleteBackup | internal/controller/databasebackup_controller.go:246-283 | a complete resolution implies a supported type, the section the builder dereferences, and no postgres section whose backupType is WAL_V1, whatever the type |
| Builders.OneEnginePayload | internal/controller/databasebackup_controller.go:337-436 | every database request carries exactly one engine payload, the one its wire type names; POSTGRES goes as POSTGRES_LOGICAL, and no WAL_V1 section ever gets here |
| Builders.OneNotifierPayload | internal/controller/notifier_controller.go:111-235 | a notifier request carries exactly one payload, and which one is equivalent to its type, for each of the six types |
| Builders.HeadersKeepOrder | internal/controller/notifier_controller.go:200-215 | header k is sent at place k with its key and its literal or resolved value |
| Builders.LinksKeepOrder | internal/controller/databasebackup_controller.go:344-349 | notifier k is sent at place k with the ID its reference resolved to, duplicates kept |
| Builders.StoragePayloadCarried | internal/controller/storage_controller.go:111-181 | requests are equal if and only if names and types are and, for S3, the sections and secret values, for SFTP, the sections and the values sent |
| Builders.StoragePayloadLost | internal/controller/storage_controller.go:118-178 | all storages of one name and type are sent as the same request, whatever their sections, if and only if the type is neither S3 nor SFTP |
| Requests.ResolutionOrder | internal/controller/databasebackup_controller.go:80-128 | the reads in order: the storage, notifier i at place i, then the refusal of WAL_V1 or the password of the section that the type names, for each of the four types, and a refusal if there is none |
| Requests.RefusedIff | internal/controller/databasebackup_controller.go:102-108 | a spec is refused as unsupported if and only if it has a postgres section with backupType WAL_V1, whatever its type |
| Requests.StorageSent | internal/controller/storage_controller.go:111-181 | name, type and workspace of every storage request; for S3 and SFTP the section read back member by member, and access key, secret key, password and private key each from their own reference |
| Requests.NotifierSent | internal/controller/notifier_controller.go:111-235 | name, type and workspace of every notifier request, the payload of its type only, its members those of the section, tokens, addresses, password and header values each from their own reference |
| Requests.SecretsSent | internal/controller/databasebackup_controller.go:306-436 | the password of a database request comes from the section of its type, and client certificate, client key and root certificate each from their own reference |
| Wire.DatabaseLossless | internal/controller/databasebackup_controller.go:337-436 | building, omitting and reading back recovers the chosen variant of the spec up to its defaults (no processors become one, any other number stays; an empty database name is absent), the notifier IDs, and password and TLS material by their references |
| Wire.DatabaseBack | internal/client/database.go:20-92 | a database request survives the omission of empty members |
| Wire.DatabaseMembers | internal/client/database.go:20-32 | exactly the members that are always there, and of the others those that are not empty |
| Wire.PostgresqlMembers | internal/client/database.go:39-60 | which members of a postgres payload are omitted, and when |
| Wire.BackupConfigLossless | internal/controller/databasebackup_controller.go:438-475 | the backup config recovers the whole backup section, empty encryption as NONE |
| Wire.BackupConfigBack | internal/client/backup_config.go:10-42 | a backup config survives the omission of empty members and zero counts |
| Wire.BackupConfigMembers | internal/client/backup_config.go:10-30 | which members of a backup config are omitted, and when |
| Wire.IntervalBack | internal/client/backup_config.go:36-42 | an interval survives; an absent weekday is not written like Sunday |
| Wire.HealthcheckLossless | internal/controller/databasebackup_controller.go:477-488 | the healthcheck config recovers the healthcheck section |
| Clusters.Cluster.Sound | internal/controller/databasebackup_controller.go:41-202 | at every point of the code below the cluster is in a state of some run, so everything proved of runs holds there |
| Clusters.Cluster.Interfere | internal/controller/databasebackup_controller.go:41-202 | anything else that happens leaves this worker's flight and the versions it has read as they are |
| Clusters.Cluster.Get | internal/controller/databasebackup_controller.go:44-78 | an error, not found, or the cached object with the branch it leads to |
| Clusters.Cluster.Update | internal/controller/databasebackup_controller.go:65-78 | commits the finalizer change only against the version read |
| Clusters.Cluster.UpdateStatus | internal/controller/databasebackup_controller.go:195-201 | commits the status only against the version read; on success it is the current one |
| Clusters.Cluster.GetSecret | internal/controller/databasebackup_controller.go:285-297 | one read of a secret, as one step of the plan; the data is that of the secret of this name |
| Clusters.Cluster.GetReferenced | internal/controller/databasebackup_controller.go:204-220 | one read of a Storage or Notifier, as one step of the plan; the object is the one the cache shows for this name |
| Clusters.Cluster.PostRecord | internal/client/database.go:104-146 | accepted only with the request of the resolved spec; if databasus made the save it holds this request, and it answers truthfully (200 or 201 for a new database, 200 otherwise, or an error) |
| DatabasusApi.DatabasusClient.SaveStorage | internal/client/storage.go:50-70 | fills in the workspace if there is none, and succeeds if and only if the save was made and the answer came back, with the ID under which databasus holds this request |
| DatabasusApi.DatabasusClient.SaveNotifier | internal/client/notifier.go:72-92 | fills in the workspace if there is none, and succeeds if and only if the save was made and the answer came back, with the ID under which databasus holds this request |
| DatabasusApi.DatabasusClient.CreateDatabase | internal/client/database.go:104-124 | the same for new databases, which are answered with 200 or with 201 |
| DatabasusApi.DatabasusClient.UpdateDatabase | internal/client/database.go:126-146 | the same for known databases, which are answered with 200 |
| DatabasusApi.DatabasusClient.GetDatabase | internal/client/database.go:148-168 | the report of databasus if the database is there, nothing if it is missing, and an error if and only if the exchange failed |
| DatabasusApi.DatabasusClient.Delete | internal/client/storage.go:94-105 | an error if and only if the request did not reach databasus or the answer did not come back; otherwise the record is gone and the worker goes on to release the finalizer |
| DatabasusApi.DatabasusClient.SaveBackupConfig | internal/client/backup_config.go:50-66 | sends the config of the resolved spec; success if and only if it was saved and answered, and then databasus holds it |
| DatabasusApi.DatabasusClient.SaveHealthcheckConfig | internal/client/healthcheck.go:28-44 | the same for the healthcheck config |
| Secrets.ResolveSecretRef | internal/controller/storage_controller.go:183-195 | the value that the cache shows for this key of this secret, or the failure to report |
| Lifecycle.Open | internal/controller/storage_controller.go:38-72 | ends the reconcile as the protocol does, or leaves an object without a mark that carries the finalizer of its kind by name |
| Lifecycle.Finalize | internal/controller/databasebackup_controller.go:53-72 | removes the record before the finalizer, and returns what the protocol returns |
| Objects.Resource.SetReadyCondition | internal/controller/databasebackup_controller.go:490-499 | afterwards the Ready condition is found with this status, reason, text and generation, its transition time moved only if the status flipped, and the conditions of other types are where and what they were |
| Reports.ReportFailure | internal/controller/databasebackup_controller.go:142-148 | a failure that commits changes the ID and the Ready condition only, which is False with this reason and text; whether it commits is ignored |
| Reports.ReportSuccess | internal/controller/databasebackup_controller.go:191-201 | a committed success leaves the object Ready at its current generation, under its ID, with these vitals |
| StorageController.StorageReconciler.BuildStorageRequest | internal/controller/storage_controller.go:111-181 | the request of the values read in the order of the plan, or the first read that failed |
| StorageController.StorageReconciler.Reconcile | internal/controller/storage_controller.go:35-109 | makes the calls of the protocol's worker and returns its result |
| StorageController.StorageReconciler.Synchronise | internal/controller/storage_controller.go:74-108 | returning without error or retry means a committed Ready |
| NotifierController.NotifierReconciler.BuildNotifierRequest | internal/controller/notifier_controller.go:111-235 | the request of the values read in the order of the plan, or the first read that failed |
| NotifierController.NotifierReconciler.BuildWebhook | internal/controller/notifier_controller.go:189-217 | the header loop: all headers resolved in order, or the first failure |
| NotifierController.NotifierReconciler.Reconcile | internal/controller/notifier_controller.go:35-109 | makes the calls of the protocol's worker and returns its result |
| DatabaseBackupController.DatabaseBackupReconciler.ResolveRef | internal/controller/databasebackup_controller.go:204-220 | the ID of an object of this name that the cache shows as Ready, or DependencyNotReady |
| DatabaseBackupController.DatabaseBackupReconciler.ResolveNotifierRefs | internal/controller/databasebackup_controller.go:222-244 | as many IDs as references, in order, or the first failure |
| DatabaseBackupController.DatabaseBackupReconciler.ResolveDatabasePassword | internal/controller/databasebackup_controller.go:246-283 | the value that the cache shows for the password reference of the section that the type names, for each of the four types |
| DatabaseBackupController.DatabaseBackupReconciler.ResolvePostgresSsl | internal/controller/databasebackup_controller.go:306-335 | the TLS material that the values read amount to, or the first failure |
| DatabaseBackupController.DatabaseBackupReconciler.BuildDatabaseRequest | internal/controller/databasebackup_controller.go:337-436 | the loop and the in-place patches produce the specified request |
| DatabaseBackupController.DatabaseBackupReconciler.BuildBackupConfigRequest | internal/controller/databasebackup_controller.go:438-475 | the copied notification list and the default encryption produce the specified config |
| DatabaseBackupController.DatabaseBackupReconciler.Synchronise | internal/controller/databasebackup_controller.go:80-128 | resolution in the order of the plan, each failure with its own reason and retry |
| DatabaseBackupController.DatabaseBackupReconciler.Send | internal/controller/databasebackup_controller.go:130-150 | create or update by the status' ID, then the configs |
| DatabaseBackupController.DatabaseBackupReconciler.SendConfigs | internal/controller/databasebackup_controller.go:152-174 | backup config, then healthcheck config if there is one, under the database's ID |
| DatabaseBackupController.DatabaseBackupReconciler.FinishSync | internal/controller/databasebackup_controller.go:176-201 | a committed success shows, member by member, what databasus told and otherwise what it showed before, and asks to be called in a minute |
| DatabaseBackupController.DatabaseBackupReconciler.Reconcile | internal/controller/databasebackup_controller.go:41-202 | makes the calls of the protocol's worker and returns its result; asking for a poll in 60 seconds means a committed Ready |
| DatabaseBackupController.Resolved | internal/controller/databasebackup_controller.go:80-131 | storage ID, notifier IDs, password and TLS values in this order make a complete resolution and its request |
| DeepCopies.DatabaseBackupResource.DeepCopy | api/v1alpha1/zz_generated.deepcopy.go:111-127 | an equal object whose reachable memory is all new |
| DeepCopies.DatabaseBackupResource.ChangeCopy | api/v1alpha1/zz_generated.deepcopy.go:192-205 | any sequence of status and finalizer changes to a copy, in place or not, has its effect there and leaves the original as it was |
| DeepCopies.StorageResource.DeepCopy | api/v1alpha1/zz_generated.deepcopy.go:698-714 | the same for Storages |
| DeepCopies.StorageResource.ChangeCopy | api/v1alpha1/zz_generated.deepcopy.go:812-821 | the same for Storages |
| DeepCopies.NotifierResource.DeepCopy | api/v1alpha1/zz_generated.deepcopy.go:427-443 | the same for Notifiers |
| DeepCopies.NotifierResource.ChangeCopy | api/v1alpha1/zz_generated.deepcopy.go:531-540 | the same for Notifiers |
| DeepCopies.Database.DeepCopy | api/v1alpha1/zz_generated.deepcopy.go:218-245 | sections behind pointers and the reference list are equal and new |
| DeepCopies.Postgresql.DeepCopy | api/v1alpha1/zz_generated.deepcopy.go:553-581 | secret references and both lists are equal and new |
| DeepCopies.Interval.DeepCopy | api/v1alpha1/zz_generated.deepcopy.go:54-76 | the four optional members are equal and new |
| DeepCopies.Backup.DeepCopy | api/v1alpha1/zz_generated.deepcopy.go:89-98 | interval and notification list are equal and new |
| DeepCopies.StorageResourceSpec.DeepCopy | api/v1alpha1/zz_generated.deepcopy.go:757-799 | all eight sections are equal and new, with what they point to |
| DeepCopies.NotifierResourceSpec.DeepCopy | api/v1alpha1/zz_generated.deepcopy.go:486-518 | all six sections are equal and new, with what they point to |
| DeepCopies.CopyHeaders | api/v1alpha1/zz_generated.deepcopy.go:891-900 | the header list is copied element by element, each secret reference anew |
| DeepCopies.ResourceStatus.DeepCopy | api/v1alpha1/zz_generated.deepcopy.go:192-205 | backup time and conditions are equal and new; no conditions stay no conditions |
| DeepCopies.ChangeStatus | internal/controller/databasebackup_controller.go:176-193 | status changes of every kind the reconcilers make write the given status' memory only, and have the intended effect |
| DeepCopies.ChangeFinalizers | internal/controller/databasebackup_controller.go:65-78 | finalizers added or removed in place, or in new memory, as the library does: the effect is the intended one, and no other memory is written |

## Left out

- HTTP, headers, timeouts, sign-in and the workspace lookup: a call is its endpoint's effect and an answer.
- The text of JSON: members are an enumeration, and escaping and number formats are not modelled.
- Flags, environment variables, manager start-up, leader election, metrics, charts, CRD validation and RBAC: configuration and wiring.
- The source of the work queue, the informers and the condition helper: libraries, stated as assumptions.
- Error texts, log lines and the wording of Kubernetes errors: any text, except the fixed message for physical backups.
- Machine integers: counts and ports are unbounded here, and no arithmetic in the code can overflow.
- Metadata other than uid, generation, deletion mark and finalizers, and the DeepCopy of lists of resources: a library's, or loops over the copies proved here.
- The Get calls for storages, notifiers and configs that no reconciler uses.
- Records that others change at databasus, or remove outside `Deletions`: the promises about what databasus holds for a Ready object suppose that it is not edited behind the operator's back.
- databasus' own scheduling, retention and probing: another program.
- Requeue delays: only their number of seconds as returned, not the passing of time.
- The JSON form of storage and notifier requests: the same rules as those proved for the three requests of a DatabaseBackup.
- DatabasusApi.DatabasusClient.Delete: stands for the three delete methods, which differ in the path only.
- Secrets.ResolveSecretRef: stands for the three copies of this helper in the controllers.
- Lifecycle.Open: stands for the opening that is repeated in the three reconcilers.
- Stages.ReasonsTell: about DatabaseBackups, whose reconcile has several remote stages; a Storage or Notifier has one.
