# Vritti application agent: a verified model

The agent keeps one deployment of the Vritti stack on a virtual machine. It holds a stream to cloud, verifies
each signed desired state pushed over it, and reconciles a set of Docker containers toward it: managed Postgres
with pgBackRest, Redis, NATS, the commerce service, core-server, Gitea, and an edge of nginx and acme-dns with one
wildcard certificate. One goroutine owns every field. It takes one input at a time: a pushed state, a command from
a bounded queue, a tick, a dropped stream.

This project models that loop and everything it decides on, as Dafny classes with the agent's own fields, and
proves what every run keeps. `dafny verify dfyconfig.toml` checks all of it.

## How it is put together

- `Dockerx` is the Docker Engine as the agent sees it: a map from name to container (engine id, owner label, spec
  hash, running), where every call may fail and a failed call may or may not have taken effect.
- `Drift` is the reconcile of one service, and the relations between two Docker worlds with which a whole pass is
  specified: what was touched, what has landed, what was swept.
- `Specs`, `Env`, `Text`, `PgBackRest`, `Acme`, `Plans` are the specs, their canonical environments, the backup
  configuration, the guarded issuance of the wildcard, and what a pass sets out to apply.
- `Events` and `Backoff` hold the event buffer with its deduplication, and the backoff arithmetic.
- `History` is the record of a run. The agent writes down every action it takes (`Ledger.Record`), and may only
  write down one that `Allowed` permits after what the log so far amounts to. `Agent.Agrees` ties each field of
  the agent to that log. The log, the passes and the events keep bookmarks (`Wrappers.Bookmark`): whoever sets one
  can tell afterwards that nothing was taken back since.
- `Passes` says what a pass may do to the containers for each way it can end, and keeps the passes of a run.
- `Agent` is the loop: `Run` takes any script of inputs and keeps `Boundary` after every one of them.
- `Theorems` proves what all lawful logs have in common; `Runs` proves what every pass of a run, and every state
  between two inputs, has.
- `Logs` is the batching loop of a log tail.

Facts that are large and only passed along (`Inv`, `Tracks`, `Stays`, `PassLaw`, ...) are guarded: each is
`forall k :: Guard(k) ==> body` with a guard of `Guards`, which is always true, and is opened by one lemma
(`OpenInv`, ...).

## What the code does that its comments do not say

- `Recreate` and `ForceRecheck` clear the backoff window only. The generation, error and resync gate still decides
  (internal/agent/agent.go:393), so in steady state the rebuild waits for it: `Theorems.QuietPassesAreSpaced`.
- Recreate requests are drained when a pass begins and are not put back when that pass fails
  (internal/agent/agent.go:743-744). Such a service stays as it was if and only if the pass failed before it came to
  it: `Runs.ForcedAtFailure`.
- acme-dns is applied without the recreate set (internal/deploy/nginx.go:129), so a recreate of it never happens:
  `Runs.AcmeDnsIsNeverForced`.
- `Apply` compares names and hashes but not the owner label. A foreign container under a planned name with the very
  hash is taken for the agent's own and then neither owned nor pruned; this is the only way a completed pass can
  miss its topology: `Runs.CompletePassConverges`, with `Drift.ForeignContainerIsAdopted` as the instance.
- The certificate check looks at the chain only. A key that failed to reach the disk after its chain leaves a
  certificate that nginx cannot use and that is not retried until the renew window: `Acme.TornWriteIsNotRetried`.
- repo2's passphrase is trimmed when the backup state is derived but not when the configuration is rendered, so a
  passphrase of white space configures an offsite repository that is reported as absent:
  `PgBackRest.StateAgreesWithConf`, `PgBackRest.BlankSwitchWitness`.
- `step` remembers one generation per reason, so a step is told again for a generation exactly when the agent comes
  back to it from another one: `Events.RepeatsIffReturns`, over whole runs `Runs.StepsRepeatExactly`, with
  `Runs.RestoreBackAndForth` as an instance through the loop.
- A pass that takes the deployment down leaves the DNS, rate-limit and secret-store flags as they were, so a
  deployment stopped while blocked goes on reporting that block (internal/agent/agent.go:750-777): a stopped state
  keeps all three flags, and Ready is then said if and only if none was set and nothing else is wrong
  (`Agent.Agent.ApplyDesired`); `Runs.StoppedWhileAwaitingDns` is an instance.
- A restore goes on when one of its removals fails (internal/agent/agent.go:536-540). What was removed is not there
  when the restore starts (`Theorems.RestoreIsExclusive`), and that is all of the three containers if and only if no
  removal failed (`Agent.AllRemoved`). `Theorems.RestoreBesideLeftover` is an instance that starts beside Postgres.
- The delegation check before a call to the certificate authority is skipped when no CNAME target is known. With a
  persisted account that happens exactly when its file cannot be read and no target is remembered, as after a
  restart: `Acme.LaterCallsArePreflighted`, over whole runs `Runs.CallsArePreflighted`, with
  `Acme.UnreadableAccountIsNotPreflighted` as an instance.
- The records of a remembered delegation are reported as they are, also after the base domain has changed
  (internal/deploy/nginx.go:155-158): those of another base are reported if and only if they were remembered and the
  attempt neither issued nor was handed new ones (`Acme.IssueIfNeeded`), with `Acme.StaleDelegationIsReported` as an
  instance.
- A listing of containers that fails counts as an empty one, and an empty one as healthy
  (internal/agent/agent.go:706-708). A Ready report has seen every owned container up if and only if the listing
  succeeded or there was none: `Agent.HealthyMeansSeen`, with `Runs.UnlistedLooksReady` as an instance.
- The inventory reader of a stopped deployment can be left behind when its own clean-up fails, because the deferred
  removal's error is ignored (internal/dockerx/dockerx.go:390-416): `Runs.TornDownIsEmpty`, with
  `Runs.InventoryReaderCanStay` as an instance.
- A deployment that is stopped first, and switched to an external database while stopped, gets no final backup:
  stopping suspends archiving (internal/agent/agent.go:758). The final backup is attempted if and only if the
  handover is what ended the last period of archiving: `Theorems.FinalBackupBeforePruning`, for the container itself
  `Runs.PostgresGoesAfterItsBackup`, with `Theorems.StoppedFirstSkipsTheFinalBackup` as an instance.

## Model

| member | source | states |
|---|---|---|
| Agent.Agent.Run | internal/agent/agent.go:184-281 | over every script of inputs, in any order and with faults anywhere, the invariant of the boundary holds after each; the log, the passes, the calls to the authority and what was emitted, delivered and asked for only grow; between any two inputs the containers are the same but for one recorded pass, a restore, or what others did; the reconnect backoff is the window of the failures in a row since the stream was last open |
| Agent.Agent.Serve | internal/agent/agent.go:227-270 | an input that is not ready changes nothing; one that is leaves exactly the queues it should, with a push answered and a restore started; the histories, with the calls to the authority, only grow; the containers change only by the one pass of a push, a tick, a re-check or a recreate, with its record, or by a restore |
| Agent.Agent.constructor | internal/agent/agent.go:143-151 | a fresh agent is at the boundary, with all queues, the recreate set, the log, the passes and the events empty |
| Agent.Agent.HandleServerEvent | internal/agent/agent.go:325-362 | a command adds to the queues exactly what it asks for; a push is answered as its state and signature demand; nothing but a push changes the desired state or runs a pass |
| Agent.Agent.HandleCommand | internal/agent/agent.go:329-357 | a command adds to the queues exactly what it asks for, dropped where a queue is full; a restore command takes the lock at once, and no other changes it |
| Agent.Agent.ApplySigned | internal/agent/agent.go:366-377 | the last desired state becomes the decoding of the signed bytes if and only if the signature verifies and they decode, and a pass runs exactly when, moreover, no restore is due and the gate is open; the answer is a report, and for a stopped or refused state the flags stay |
| Agent.Agent.Refuse | internal/agent/agent.go:368-374 | a refused push changes nothing but the events: one error event unless its text is the last one again |
| Agent.Agent.ApplyDesired | internal/agent/agent.go:382-412 | a pass runs exactly when no restore is under way, no window is open, and the generation is new, the last pass failed or the resync interval is over; the report that ends it is Ready exactly as flags, error and services have it; a stopped state keeps the flags, so Ready is then said if and only if none was set before, there is no error and no listed service is down or coming up |
| Agent.Agent.Reapply | internal/agent/agent.go:416-421 | the same gate for the last desired state, and nothing without one; a pass drains the services to rebuild, and without one they stay marked |
| Agent.Agent.MaybeReconcile | internal/agent/agent.go:391-404 | one pass if the gate is open at the time read, none otherwise |
| Agent.Agent.SettlePass | internal/agent/agent.go:396-403 | a failure is kept, told unless its text is the last one again, and backed off from; a good pass forgets the last error |
| Agent.Agent.ReportHeartbeat | internal/agent/agent.go:424-428 | exactly one report, of the generation last applied; it is Ready if and only if there is no error, no flag and no listed service down or coming up, and a listing that succeeds shows exactly the owned containers |
| Agent.Agent.Report | internal/agent/agent.go:1183-1214 | one report is written down, with the generation last applied, or, not Ready, with that of the running pass; all buffered events are delivered with it, or none and they stay buffered |
| Agent.Agent.BuildConditions | internal/agent/agent.go:620-673 | exactly one Ready condition, and it is first; it is true if and only if there is no error, no block flag and no service down or coming up; the reason follows the ladder, with the services concerned |
| Agent.Agent.EnterBackoff | internal/agent/agent.go:568-579 | the window grows to that of one more failure and opens from now |
| Agent.Agent.RequestRecreate | internal/agent/agent.go:165-173 | an unnamed service is ignored, a full queue drops the request, and otherwise it is queued last; the other queues stay |
| Agent.Agent.RequestBackup | internal/agent/agent.go:453-458 | queued last unless four are waiting |
| Agent.Agent.RequestRestore | internal/agent/agent.go:353-359 | the lock is held afterwards; a second request while one is queued is dropped |
| Agent.Agent.TakeRestore | internal/agent/agent.go:503-550 | a restore taken off the queue ends with the lock released, whatever became of it; only its four containers can have changed, but for the pass that follows exactly when one is due; with backups on the restore is asked for as a step |
| Agent.Agent.TryRestore | internal/agent/agent.go:512-550 | only Postgres, core-server, commerce and the restore container can have changed; nothing has without backups to restore from |
| Agent.Agent.ClearForRestore | internal/agent/agent.go:534-540 | what was removed is not there; no other container is touched, and no removal changes one |
| Agent.AllRemoved | internal/agent/agent.go:534-540 | all three containers are removed if and only if no removal failed |
| Agent.Agent.RestoreOffline | internal/agent/agent.go:542-550 | the restore container is the only one touched; which removals succeeded, and what was there when it started, is written down |
| Agent.Agent.TakeRecheck | internal/agent/agent.go:256-258 | a pass runs exactly when it would be due with no backoff window: the gate still decides |
| Agent.Agent.TakeRecreate | internal/agent/agent.go:259-265 | the first service in the queue is marked; a pass runs exactly when it would be due with no backoff window, and then no mark is left; otherwise the service stays marked beside the others |
| Agent.Agent.Resync | internal/agent/agent.go:250-255 | a tick runs a pass exactly when one is due |
| Agent.Agent.Mark | internal/agent/agent.go:259-263 | the service joins those to be rebuilt |
| Agent.Agent.RunScheduledBackup | internal/agent/agent.go:432-449 | nothing while backups are off; otherwise one backup, full on every 24th tick and incremental else, and one event of its outcome |
| Agent.Agent.RunOnDemandBackup | internal/agent/agent.go:462-482 | skipped and reported while backups are off; otherwise a report, one manual backup, incremental unless asked otherwise, and a report, with the events of its start and outcome |
| Agent.Agent.Reconcile | internal/agent/agent.go:740-1150 | a pass over a desired state keeps the law of passes between the containers it found and those it left, drains the recreate set, and ends with the generation applied, a block flag raised, or an error; a stopped state keeps the flags; the histories only grow |
| Agent.Agent.TearDown | internal/agent/agent.go:746-777 | on success no owned container is left but, with backups, the inventory reader; archiving, certificates, delegation and backoff are cleared and the generation is applied; on failure only owned containers were removed and nothing else changed |
| Agent.Agent.BringUp | internal/agent/agent.go:778-1150 | a pass over a deployment that is to be up keeps the law of passes, and provisions beyond acme-dns only with the wildcard where it has to come first |
| Agent.Agent.HandOver | internal/agent/agent.go:790-803 | an external database that takes over from archiving has one final full backup attempted, and no other one; after it no archiving is on and none is owed |
| Agent.Agent.OpenSecrets | internal/agent/agent.go:805-823 | in whatever order the names are visited, the credentials of the secret store and the external connection are found exactly where they are there |
| Agent.Agent.ReadProvisioning | internal/agent/agent.go:848-902 | the connection is the one the mode asks for, from the folders that mode needs, and none of the keys it requires is blank |
| Agent.Agent.Gather | internal/agent/agent.go:805-926 | the pass is blocked, and not failed, if and only if no secret store is configured; on success the secrets are what the store holds |
| Agent.Agent.AttemptWildcard | internal/agent/agent.go:933-941 | only acme-dns is touched, and it has landed unless the attempt is an error; the calls made so far are kept, and records of another base are reported only if they were remembered |
| Agent.Agent.SettleWildcard | internal/agent/agent.go:942-983 | only an issued wildcard lets the pass go on; a wait raises the DNS flag with its delegation, a throttle the rate-limit flag and a backoff, and an error is returned without one |
| Agent.Agent.AnnounceWildcard | internal/agent/agent.go:971-983 | the first issuance is announced by one event and one report, not Ready, of the generation of the pass; later ones are silent |
| Agent.Agent.EnsureEdge | internal/agent/agent.go:928-988 | the pass goes on only with the wildcard issued in this pass, or without a managed edge; otherwise it is blocked or has failed, with no app container created |
| Agent.Agent.ConfigureBackups | internal/agent/agent.go:996-1029 | a reported offsite repository is completely configured, and repo1 is encrypted with the passphrase stored, which is not blank |
| Agent.Agent.EnsureBase | internal/agent/agent.go:1045-1051 | there is a base backup afterwards, or the pass fails |
| Agent.Agent.SettleBackups | internal/agent/agent.go:1054-1058 | archiving and the base-backup mark are as the desired state has it |
| Agent.Agent.RefreshBackupInfo | internal/agent/agent.go:554-565 | the inventory is cleared while backups are off, replaced by one that is read, and the same as before when reading fails |
| Agent.Agent.ProvisionDatabase | internal/agent/agent.go:1031-1060 | Postgres has landed if managed, with archiving as wanted |
| Agent.Agent.Migrate | internal/agent/agent.go:1155-1179 | migrations touch nothing but their one-shots; success means that both ran in a container of their own and exited with 0, core's first, and the first failure ends the pass |
| Agent.Agent.RenderForMigrations | internal/agent/agent.go:1062-1066 | commerce's environment is its map verbatim, core's is without the Gitea additions, both canonical |
| Agent.Agent.ProvisionGitea | internal/agent/agent.go:1077-1112 | with the add-on, Gitea has landed and its token is the stored one; without it nothing is touched |
| Agent.Agent.StartServices | internal/agent/agent.go:1118-1124 | the services land in order, up to the first failure, which is the one reported |
| Agent.Agent.RenderServices | internal/agent/agent.go:1070-1116 | core-server's environment is the canonical rendering with Gitea's address and stored token exactly when the add-on is on |
| Agent.Agent.ProvisionNginx | internal/agent/agent.go:1126-1137 | nginx has landed |
| Agent.Agent.ProvisionStack | internal/agent/agent.go:990-1137 | on success the names kept are exactly the topology and each has landed; on failure no more was touched than the failing stage builds on |
| Agent.Agent.PruneSurplus | internal/agent/agent.go:1139-1142 | the pass has converged, or failed with owned surplus partly removed |
| Agent.Agent.CompletePass | internal/agent/agent.go:1144-1149 | block, window and failures are cleared and the generation is applied |
| Runs.CompletePassConverges | internal/agent/agent.go:928-1150 | from any starting world: after a completed pass every name of the topology runs with the hash of the spec wanted for it, and the owned names are exactly the topology if and only if no foreign container was adopted |
| Runs.SecondPassIsIdle | internal/deploy/reconcile.go:25-50 | a second completed pass over the same state and secrets with nothing forced leaves every container of the topology as the first did, also those stopped in between, and no other container changes but the migration one-shots |
| Runs.RecreatedByCompletePass | internal/agent/agent.go:259-265 | a forced service of the topology other than acme-dns has a fresh container after a completed pass, drifted or not |
| Runs.AcmeDnsIsNeverForced | internal/deploy/nginx.go:128-131 | an undrifted acme-dns keeps its container, forced or not |
| Runs.EarlyStopKeeps | internal/agent/agent.go:1019-1142 | wherever a pass stops before its pruning, what it removed or replaced is a one-shot, or a name of the topology that had drifted or was forced |
| Runs.BlockedPassTouchesNoApp | internal/agent/agent.go:934-988 | a pass that is blocked, or fails before provisioning, touches no app container |
| Runs.LaterStagesAreUntouched | internal/agent/agent.go:1061-1137 | a pass that fails at a stage has not touched what comes after it; a failed migration leaves the services alone |
| Runs.ForcedAtFailure | internal/agent/agent.go:740-1142 | a service to be rebuilt is untouched by a failing pass if and only if the pass failed before it came to it, and is rebuilt otherwise, unless the pass failed at that very service |
| Runs.TornDownIsEmpty | internal/agent/agent.go:746-770 | a deployment taken down owns nothing but, with backups, the one-off inventory reader |
| Runs.InventoryReaderCanStay | internal/dockerx/dockerx.go:390-416 | an instance: the inventory reader stays behind |
| Runs.EveryPassKeptTheLaw | internal/agent/agent.go:740-1150 | the n-th pass to end in the log of a run has the n-th record, with the same desired state, services to rebuild and end, and kept the law of passes |
| Runs.PostgresGoesAfterItsBackup | internal/agent/agent.go:790-803 | where a pass over an external database removed Postgres, the final full backup of the last period of archiving was attempted if and only if the handover ended that period |
| Runs.AppsChangeBehindTheEdge | internal/agent/agent.go:930-988 | with a managed edge, a pass that changed an app container, other than by taking the stack down, had the wildcard issued in that pass |
| Runs.LockIsQueue | internal/agent/agent.go:353-359 | the restore lock is held exactly while one request is queued, and exactly while the log has a restore due |
| Runs.FlagsAgree | internal/agent/agent.go:407 | blocked is one of the two waits, the edge flags exclude each other, and a delegation implies one of them |
| Runs.CallsArePreflighted | internal/deploy/nginx.go:145-170 | over a whole run, once an account is persisted, a later call was pre-flighted if and only if the target was remembered or the account file could be read |
| Runs.OnlyPassesAndRestoresTouch | internal/agent/agent.go:184-281 | heartbeats, backups, commands and a closed stream leave all containers alone; a push, tick, re-check or recreate changes them only from the before to the after of its recorded pass |
| Runs.EventsAreConserved | internal/agent/agent.go:676-678 | with any report failing, delivered events followed by the buffered ones are all that was ever emitted, in order; `Agent.Agent.Run` adds that both only grow |
| Runs.StepsNeverRepeat | internal/agent/agent.go:589-598 | while received generations never decrease, no step is told twice for one generation |
| Runs.StepsRepeatExactly | internal/agent/agent.go:589-598 | over a whole run, a step was told twice for one generation if and only if the run came back to it from another one |
| Runs.RestoreBackAndForth | internal/agent/agent.go:503-550 | an instance through the loop: restored, restored under another generation and restored again, whatever fails, a step has been told twice |
| Runs.StoppedWhileAwaitingDns | internal/agent/agent.go:746-777 | an instance through the loop: a deployment stopped while it waits for DNS goes on waiting, and the answer is not Ready |
| Runs.CertificateFirst | internal/agent/agent.go:930-988 | from a clean start with managed edges only, an app container exists only after the wildcard was issued |
| Runs.FieldsFollowTheLog | internal/agent/agent.go:65-126 | generation, desired state and base backup are those of the log; archiving implies a base backup |
| Theorems.NoPassBeforeRestore | internal/agent/agent.go:386-390 | between a restore command and the end of its restore no pass starts |
| Theorems.NothingInsidePass | internal/agent/agent.go:220-271 | a pass runs to its end before anything of a restore, or another pass |
| Theorems.RestoreIsExclusive | internal/agent/agent.go:503-550 | a restore was asked for, no pass started since, and no container whose removal succeeded is there when it starts |
| Theorems.RestoreBesideLeftover | internal/agent/agent.go:534-540 | an instance: a lawful run in which a restore starts beside a Postgres whose removal failed |
| Theorems.BackoffIsKept | internal/agent/agent.go:391-393 | after a backoff no pass starts before the window is over, even for a new generation, unless a force re-check or recreate came in between |
| Theorems.BackoffClosedForm | internal/agent/agent.go:568-585 | the n-th failure since the last reset backs off for min(30 s doubled n - 1 times, 30 min) |
| Theorems.OneBackoffPerPass | internal/agent/agent.go:396-402 | two backoffs have a pass start between them: the error path and the rate-limit path exclude each other |
| Theorems.BackoffHasItsCause | internal/agent/agent.go:396-402 | between a pass and the next the agent backs off if and only if the pass failed or was throttled |
| Theorems.EveryBackupHasABase | internal/agent/agent.go:1045-1058 | every scheduled or manual backup follows a successful full one taken since backups were last off |
| Theorems.ArchivingHasABase | internal/agent/agent.go:1045-1058 | archiving implies a base backup at every point of every run |
| Theorems.FinalBackupBeforePruning | internal/agent/agent.go:750-803 | when a pass over an external database comes to its pruning, a final full backup was attempted in the last period of archiving if and only if the handover ended that period, and not a stop or switching backups off |
| Theorems.NoFinalBackupAfterStop | internal/agent/agent.go:750-803 | after a stop, or after backups were switched off, no final backup is attempted until archiving is on again |
| Theorems.StoppedFirstSkipsTheFinalBackup | internal/agent/agent.go:750-803 | an instance: a lawful run that stops, switches to an external database and starts, and completes that pass without a final backup |
| Theorems.OneFinalBackupPerPeriod | internal/agent/agent.go:793-796 | two final backups have archiving turned on between them, however often the pass is retried |
| Theorems.HandoverIsFinished | internal/agent/agent.go:794-803 | a handover that has begun has its final backup attempted before the pass ends |
| Theorems.AppliedByItsPass | internal/agent/agent.go:1148 | a generation is applied only by a pass over a desired state of that generation, going offline only by a stopped one |
| Theorems.AppliedIffCompleted | internal/agent/agent.go:775 | a pass has applied its generation if and only if it ended complete or torn down |
| Theorems.ReportsAreSound | internal/agent/agent.go:409-411 | a report carries the generation last applied, or that of the running pass and is not Ready; Ready is said outside passes only and, unless a restore is due, of the generation last received |
| Theorems.OnlySignedStatesAreApplied | internal/agent/agent.go:726-738 | every pass works on the decoding of the bytes last received, and those were signed with the trusted key |
| Theorems.QuietPassesAreSpaced | internal/agent/agent.go:393 | without a new generation and without an error, two passes are a resync interval apart, recreates or not |
| Theorems.RecreatesAreDelivered | internal/agent/agent.go:259-265 | a pass is told to rebuild exactly the services taken off the queue since the last pass began |
| Theorems.MigrationsComeFirst | internal/agent/agent.go:1061-1067 | a pass that completed, or got as far as Gitea or a service, ran core's and then commerce's migration to success in that very pass; a migration is written down only once its container has exited with 0 |
| Theorems.EveryPassIsCertFirst | internal/agent/agent.go:930-988 | a pass with a managed edge that completed, or failed at a stage beyond the edge, had the wildcard issued in that pass |
| Events.EventLog.Emit | internal/agent/agent.go:676-678 | one event more, at the end of the buffer |
| Events.EventLog.Step | internal/agent/agent.go:589-598 | one event per reason and generation; the step is among those asked for, and the reason's latest generation is remembered |
| Events.RepeatsIffReturns | internal/agent/agent.go:589-598 | a step is told twice if and only if it is asked for, then its reason for another generation, then the step again |
| Events.EventLog.EmitBlock | internal/agent/agent.go:602-608 | one event per distinct block |
| Events.EventLog.EmitError | internal/agent/agent.go:681-687 | one event per distinct error text |
| Events.EventLog.Push | internal/agent/agent.go:1183-1214 | a report delivers all buffered events, or, if it fails, none of them and they are buffered in order again |
| Events.EventLog.StepsAreDistinct | internal/agent/agent.go:589-598 | while the generations stepped never decreased, all steps differ |
| Events.RepeatAfterGoingBack | internal/agent/agent.go:589-598 | generations 2, 1, 2 tell one step three times |
| Backoff.Grow | internal/agent/agent.go:303-311 | doubling in place, capped, is the window of one more failure |
| Backoff.WindowClosedForm | internal/agent/agent.go:568-579 | capping at every doubling equals capping once: min(base doubled n - 1 times, cap) |
| Backoff.WindowGrows | internal/agent/agent.go:303-311 | windows never shrink while failures go on, and never exceed the cap |
| Drift.SpecHashIsFaithful | internal/deploy/reconcile.go:13-19 | equal hashes mean equal specs up to the label, which never feeds its own value back |
| Drift.Apply | internal/deploy/reconcile.go:25-50 | on success the same container, now started, when hash and name match unforced, and a fresh one of ours otherwise; on failure at any point nothing else changed, and an undrifted unforced container survives |
| Drift.ConvergenceExact | internal/deploy/reconcile.go:25-50 | a completed plan is in place if and only if no planned name was held, matching and unforced, by a foreign container |
| Drift.ForeignContainerIsAdopted | internal/deploy/reconcile.go:30-41 | an instance: a foreign container with the very hash stays, and stays foreign |
| Drift.SecondPassKeepsEverything | internal/deploy/reconcile.go:34-41 | with the plan in place and nothing forced, a completed pass changes no container but one-shots |
| Drift.ForcedIsRebuilt | internal/deploy/reconcile.go:30 | a forced name has an id that did not exist before the pass |
| Drift.EarlyStopIsSafe | internal/deploy/reconcile.go:25-50 | an early stop removed only drifted or forced names of its plan, and one-shots |
| Drift.GentleThen | internal/agent/agent.go:1019-1124 | stages over disjoint names add up to one step over both |
| Dockerx.Client.Remove | internal/dockerx/dockerx.go:272-278 | the name is gone on success, gone or untouched on failure; an absent one is no error |
| Dockerx.Client.EnsureStarted | internal/dockerx/dockerx.go:296-311 | a stopped container is started in place; a running or absent one is left alone |
| Dockerx.Client.Run | internal/dockerx/dockerx.go:377-386 | a fresh, started, labelled container under the name, or a failure that touched that name only |
| Dockerx.Client.RunToCompletion | internal/dockerx/dockerx.go:390-416 | touches its own name only, and can leave a container behind; success means that a new one was created and ran to its exit with the code returned |
| Dockerx.Client.PruneExcept | internal/dockerx/dockerx.go:669-682 | in whatever order, only owned names outside the set go; on success all of them have |
| Dockerx.Client.WaitHealthy | internal/dockerx/dockerx.go:760-787 | polling ends, and success means that the container exists and was found healthy |
| Dockerx.Client.List | internal/dockerx/dockerx.go:626-653 | exactly the owned containers are listed, or none when the listing fails |
| Agent.HealthyMeansSeen | internal/agent/agent.go:706-708 | with no service down or coming up, every owned container was seen up if and only if the listing succeeded or none is owned |
| Runs.UnlistedLooksReady | internal/agent/agent.go:706-708 | an instance: with no error and no flag, a failed listing makes the report Ready beside an owned container that is down |
| Env.MapToSortedSlice | internal/deploy/env.go:39-50 | the slice is the one canonical slice of the map, in whatever order the map is visited |
| Env.RenderCoreEnv | internal/deploy/env.go:17-31 | the canonical slice of the map with cloud's values on top |
| Env.EnvRoundTrip | internal/deploy/env.go:39-50 | the environment reads back as the rendered map if and only if no key holds a `=` |
| Env.CanonicalFrom | internal/deploy/env.go:38-50 | any ascending listing of the keys renders to the same slice, so hashes do not depend on map order |
| Env.EnvPort | internal/deploy/specs.go:23-33 | the first line with a positive port decides, and the fallback without one |
| Env.PortSurvivesRendering | internal/deploy/specs.go:23-33 | the rendered slice carries the port the map configures |
| Env.PortIsDetermined | internal/deploy/specs.go:23-33 | all readers of one slice get one port |
| Text.AscendingIsUnique | internal/deploy/env.go:44 | two ascending arrangements of the same strings are equal |
| Specs.RoutesReachTheStack | internal/deploy/nginx.go:46-62 | every derived route leads to a container of the topology on a port it exposes; core-server's health check asks that port |
| Specs.CorePortIsConfigured | internal/deploy/specs.go:139-152 | with no `=` in a key, core-server exposes the port configured in the secret store |
| Specs.SamePlan | internal/deploy/specs.go:53-152 | same state, secrets and token, same plan |
| Specs.ArchivingIsDrift | internal/deploy/specs.go:53-93 | switching backups on or off changes Postgres' hash |
| Specs.RequireSecrets | internal/deploy/secrets.go:12-24 | names exactly the required keys that are absent or blank |
| PgBackRest.ValidateBackupSecrets | internal/deploy/pgbackrest.go:47-64 | names exactly what is missing: repo1's passphrase, and the S3 values once repo2 is asked for |
| PgBackRest.RenderPgBackRestConf | internal/deploy/pgbackrest.go:86-134 | repo1 is always encrypted; repo2 is there, complete and encrypted, if and only if all its values are |
| PgBackRest.ReportedOffsiteIsConfigured | internal/deploy/pgbackrest.go:68-73 | after validation a reported offsite repository is configured |
| PgBackRest.StateAgreesWithConf | internal/deploy/pgbackrest.go:47-122 | after validation, state and configuration agree if and only if repo2's passphrase is not white space beside complete S3 values |
| PgBackRest.BlankSwitchWitness | internal/deploy/pgbackrest.go:47-122 | an environment that validates and disagrees |
| Acme.DnsDelegationReady | internal/deploy/acme.go:266-304 | ready if and only if each of the three records is live on some resolver |
| Acme.EdgeHost.IssueWildcard | internal/deploy/acme.go:341-425 | issued means chain and key on disk belong together; a failed write leaves chain and key of this base as far as it came, and no other base changes |
| Acme.IssueIfNeeded | internal/deploy/nginx.go:141-201 | one call to the authority at most, exactly for a missing or expiring chain and, where the target is known, a delegation seen live; the outcome follows from the error's text, an issued certificate is usable if and only if it was just written or was usable before, and records of another base are reported if and only if they were remembered and nothing was issued or handed out |
| Acme.EnsureWildcard | internal/deploy/nginx.go:112-201 | acme-dns is the only container touched and has landed unless the outcome is an error; issued implies a chain on disk, usable if and only if it was or was just written |
| Acme.LaterCallsArePreflighted | internal/deploy/nginx.go:145-170 | once an account is persisted, a later call was pre-flighted if and only if the target was remembered or the account file could be read |
| Acme.UnreadableAccountIsNotPreflighted | internal/deploy/nginx.go:145-170 | an instance: with an unreadable account and no remembered target a missing certificate is asked for unchecked |
| Acme.StaleDelegationIsReported | internal/deploy/nginx.go:155-170 | an instance: after a change of the base domain the old records go on being reported, and no certificate is asked for |
| Acme.TornWriteIsNotRetried | internal/deploy/acme.go:416-425 | a chain without its key is neither usable nor retried before the renew window |
| Acme.EnsureNginx | internal/deploy/nginx.go:207-237 | nginx has landed, and the configuration file is that of the certificate on disk, the base domain and core-server's port |
| Plans.KeptIsTopology | internal/agent/agent.go:926-1137 | the names kept stage by stage are the topology |
| Plans.ServicesAreWanted | internal/agent/agent.go:1070-1124 | however far the services come, the plan holds exactly wanted specs |
| Plans.OnlyNginxIsMissing | internal/agent/agent.go:1070-1137 | with all services, only nginx can be missing from the topology |
| Logs.Tail | internal/agent/logs.go:83-114 | for any interleaving of lines, ticks and end, the batches pushed are non-empty, hold 200 lines at most, and add up in order to exactly the lines received |

## Left out

- The Docker SDK, the Connect transport, lego, DNS, the secret store's protocol and file I/O: each is an operation
  that may fail, with the effect it has on modelled state.
- Cryptography: a signature is valid for exactly the bytes and the key it was made with, a sealed secret opens or
  does not, and the spec hash is free of collisions.
- The fixed command lines, mounts and health checks of the specs, and the literal nginx, acme-dns and pgBackRest
  texts: they are named, and what varies in them is a parameter.
- Event and error messages: events carry level, component and reason, and an error a stage and one text.
- The fields pendingEvents, emittedSteps, curBlockReason and lastErrMsg are grouped into one object, `EventLog`;
  the record of a run (`Ledger`, `PassBook`, the ghost sequences of `EventLog`, `EdgeHost` and `Client`) and its
  bookmarks are not in the code.
- Cancelling the context: inside an operation it is one of its failures; the loop then ends with its script.
- Agent.Agent.Suffer: outside a pass others may stop, start or remove any container, change secrets, lose
  certificates and let time pass; they can create containers, but none under an app's name, and never delete the
  acme-dns account, and during a pass only the agent touches Docker.
- Agent.Agent.CollectServices: resource samples, host metrics and the disk breakdown are not part of a report.
- Dockerx.Client.WaitHealthy: a container found healthy is not tracked as healthy afterwards.
- Acme.EnsureNginx: what nginx has loaded is outside the model. The reload after a change is attempted and its result
  ignored, as in the code, and a change whose nginx fails to apply is not reloaded later.
- Dockerx.Client.RunToCompletion: the exit code is whatever the container's program makes of it.
- Runs.EveryPassKeptTheLaw: the log holds no containers. That those of a record are the ones the pass found and left
  is stated by Agent.Agent.Reconcile, and by Agent.Agent.Run for the containers between two inputs.
- Agent.Agent.BringUpPostgres: roles, schemas and the pgBackRest stanza are made inside the database, which the map
  of containers does not show; a failure there ends the pass, success leaves no trace in the model.
- Acme.Lower: case folding covers ASCII, which is all that host names and the matched error texts hold.
- Theorems.EveryBackupHasABase: that a base is still on disk is outside the model; only its being taken is stated.
- Theorems.FinalBackupBeforePruning: it speaks of an attempt, because the code goes on when the final backup fails.
- The tails map of the log manager (its deferred delete can drop a newer tail), web-bundle extraction, enrollment,
  key files, configuration loading and the wire mapping.
- Liveness: that passes, reports or issuances eventually succeed depends on the network and cloud.
