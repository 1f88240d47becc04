# bbsit verification models

bbsit deploys container stacks on one host, watches a registry for new image digests, keeps
project secrets encrypted, exposes hostnames through Cloudflare tunnels, streams events to
browsers, and is backed up by a pair of shell scripts on two hosts. This project models the
parts of it whose correctness spans several functions, and proves what they are for.

| file | what it models |
|---|---|
| `SnapshotFs` | directories, hard links and inode reference counts |
| `SnapshotPull` | the backup host as a machine that may stop at any step |
| `SnapshotSource` | the exporting host as a machine that may stop at any step |
| `SnapshotProtocol` | both hosts interleaved in any way |
| `SnapshotRetention` | what retention should keep, recomputed from the full history |
| `SnapshotScripts` | the pull script itself, loop by loop; every change it makes is a step of `SnapshotPull` |
| `SnapshotRuns` | many nights of exports and uninterrupted pulls, from two empty hosts |
| `Deployments` | deploy, rollback, start, stop: state row, deployment log, compose files, containers |
| `Scheduling` | registry polls, and whole runs of serialised calls |
| `DeployRaces` | the same tables under concurrent callers, crashes and the startup reset |
| `HubMachine` | the WebSocket hub loop, its bounded channels and its clients |
| `Subscriptions` | the browser's shared socket and its `lastSent` key, and the pages that use it |
| `Secrets`, `Migration` | sealed columns, and the crash-recoverable V8 migration |
| `Redaction` | masking secret variables and resolving the masks again |
| `Paths`, `Projects` | lexical paths, volume normalisation, project defaulting |
| `Bundle` | packing volumes into a tar stream and unpacking them |
| `Dns`, `Ingress` | DNS repair and its check; ingress collection and its printed form |
| `Options`, `Strings` | missing values and failures; byte order, sorted listings, joining, splitting, decimal numbers |

A component that works by changing things step by step is a class or a loop, proved equal to a
function of the state before; what the system promises is then proved about that function, or
about all runs of a step relation. The outside world (registry, container runtime, health
checks, rsync, Cloudflare, disks) appears as outcomes handed in by the caller, so every theorem
holds whatever they are.

Findings, each proved with its exact condition or with the step that shows it:

- A run visible in `daily/` can be incomplete: `rm -rf` is not atomic, so retention cut off in
  the middle leaves part of a run under its valid name. At any point of any behaviour this can
  happen to a run before the next publication if and only if at least `KEEP_DAILY` newer ones are
  there (`DailyTornIff`); at each moment only the oldest run can be in that state
  (`DailyIsVerified`). The export script prunes `ready/` the same way, and there a run can be seen
  without its seal if and only if `SOURCE_KEEP_READY` newer ones are there (`ReadyTornIff`).
- A promotion cut off inside `cp -al` holds a part of its run and never more than that, whatever
  both hosts do (`TornPromotionStays`); one that ran to its end holds the run
  (`WholePromotionHolds`).
- A poll, start or stop that read the state row before a deploy and writes it afterwards puts the
  old digests and status back (`StaleWriteUndoesDeploy`). Without such an overlap, and without a
  crash between a deploy's last two statements, the log explains the recorded digests at every
  moment of every run (`HistoryUnlessOverlap`); such a crash loses them (`CutCommitLosesDigests`).
- Over every serialised run, a manual rollback is refused if and only if fewer than two
  deployments of the project have succeeded (`RollbackRefusedIff`); once a rollback has succeeded
  there is always a version to roll back to (`RollbackStaysPossible`).
- The V8 migration seals an environment without checking that it is JSON. The next stage refuses
  it in the same startup if and only if its project has no classification yet
  (`ClassificationRefusesIff`); the V8 stage of the next startup refuses it in any case, and
  refuses nothing else (`SecondStartup`).
- A subscription to the empty id alone is never sent, and nothing else goes wrong with ids:
  callers restricted to a set of ids always reach agreement if and only if the empty id is not
  among them (`AgreesIff`). Pages remember their lists by a comma-join: they follow every list of
  non-empty ids if and only if ids are written without commas (`PagesFollowIff`), as the ids the
  server admits are (`ValidIdsAreServed`).
- Volume normalisation moves nothing except an empty path with no stack directory
  (`NormaliseKeepsMeaning`). A path whose first name below the stack begins with two dots stays
  absolute (`RelativeIff`).
- The DNS status and the DNS repair look at different records when an A or AAAA record precedes
  the CNAME (`GoodIsLeftAloneIff`).
- A hostname with a newline prints like two routes (`NewlineCollides`): the printed configuration
  tells routes apart if and only if hostnames may not contain one (`ConfigExactIff`).

## Model

| member | source | states |
|---|---|---|
| SnapshotFs.FreedIffUnreferenced | ops/snapshot/backup-server/bbsit-snapshot-pull:45-52 | an inode is allocated exactly when some directory entry refers to it |
| SnapshotFs.LinkKeeps | ops/snapshot/backup-server/bbsit-snapshot-pull:114-125 | hard-linking a file adds it to one directory with the same bytes, changes no other directory and keeps all link counts right |
| SnapshotFs.UnlinkKeeps | ops/snapshot/backup-server/bbsit-snapshot-pull:45-52 | removing a link frees the inode only with its last link; every other directory keeps its contents |
| SnapshotFs.RenameKeeps | ops/snapshot/backup-server/bbsit-snapshot-pull:241 | renaming a directory moves its contents and nothing else |
| SnapshotPull.StepKeepsInv | ops/snapshot/backup-server/bbsit-snapshot-pull:177-251 | the backup host's invariant survives every step and a stop at any step, if the run chosen is newer than everything published |
| SnapshotPull.ExcessDaily | ops/snapshot/backup-server/bbsit-snapshot-pull:54-66 | retention picks from daily/ exactly the oldest published run that is still there, and only above the quota |
| SnapshotPull.TamperingIsFound | ops/snapshot/backup-server/bbsit-snapshot-pull:218-221 | the check fails when a listed file is missing or altered, when the list is missing or empty, and when the marker is missing |
| SnapshotPull.BytesKept | ops/snapshot/backup-server/bbsit-snapshot-pull:114-154 | although inodes are shared with the run being fetched, promoted or removed, no step changes the contents of a settled recovery point |
| SnapshotPull.SealedOnce | ops/snapshot/backup-server/bbsit-snapshot-pull:199-241 | what was verified for a published run is recorded once and never rewritten |
| SnapshotSource.StepKeepsInv | ops/snapshot/source/bbsit-snapshot-export:106-216 | after every step of an export and a stop anywhere, a run in ready/ with fewer than SOURCE_KEEP_READY newer ones is sealed, and removal works on the lowest run and never on such a one |
| SnapshotSource.NewestMonotone | ops/snapshot/source/bbsit-snapshot-export:59-74 | publishing and pruning never lower the newest run id |
| SnapshotSource.NewestIsSealed | ops/snapshot/source/bbsit-snapshot-export:194-216 | the run a puller would pick has `.complete` and a list that names exactly its other files, each with the hash of its content |
| SnapshotSource.NothingStagedIsLost | ops/snapshot/source/bbsit-snapshot-export:106-121 | what leaves staging is in ready/, or, when the export gives up, in failed/, with the files it had; nothing else comes into either |
| SnapshotProtocol.BehaviourInv | ops/snapshot/backup-server/bbsit-snapshot-pull:177-251 | both hosts' invariants, and that the source is never behind, hold after every interleaving of their steps |
| SnapshotProtocol.ChosenIsNewer | ops/snapshot/backup-server/bbsit-snapshot-pull:182-191 | a source run that is not in daily/ is newer than everything ever published |
| SnapshotProtocol.PublishedInOrder | ops/snapshot/backup-server/bbsit-snapshot-pull:241 | each run that reaches daily/ is strictly newer than every run there |
| SnapshotProtocol.LatestLink | ops/snapshot/backup-server/bbsit-snapshot-pull:241-246 | with no publication cut before the link switch `latest` is the greatest run of daily/; with fewer than KEEP_DAILY such cuts it does not dangle |
| SnapshotProtocol.LatestLinkExact | ops/snapshot/backup-server/bbsit-snapshot-pull:54-66 | once retention has caught up, `latest` dangles if and only if at least KEEP_DAILY publications in a row were cut |
| SnapshotProtocol.ReadyIsSealed | ops/snapshot/source/bbsit-snapshot-export:194-212 | in every behaviour a run in ready/ with fewer than SOURCE_KEEP_READY newer ones is sealed |
| SnapshotProtocol.ReadyTornIff | ops/snapshot/source/bbsit-snapshot-export:59-74 | after a publication and before the next, a run in ready/ can come to be seen without its seal if and only if at least SOURCE_KEEP_READY newer ones are there |
| SnapshotSource.CanTearIff | ops/snapshot/source/bbsit-snapshot-export:68-73 | the same at one state: the removals that lead there, or that none do |
| SnapshotProtocol.DailyIsVerified | ops/snapshot/backup-server/bbsit-snapshot-pull:214-241 | in every behaviour a run in daily/ has all the files its list names with the hashes it gives, carries `.verified` and holds what was published, except possibly the oldest one once newer runs fill the quota |
| SnapshotProtocol.BytesNeverChange | ops/snapshot/backup-server/bbsit-snapshot-pull:45-66 | along every behaviour a recovery point that stays settled keeps its bytes |
| SnapshotProtocol.InodesAreReferenced | ops/snapshot/backup-server/bbsit-snapshot-pull:45-52 | along every behaviour an inode exists exactly while a directory refers to it |
| SnapshotProtocol.TornDailyIsVisible | ops/snapshot/backup-server/bbsit-snapshot-pull:51 | from an idle host, the steps by which the oldest run, once newer ones fill the quota, is left visible and not passing its list |
| SnapshotProtocol.DailyTornIff | ops/snapshot/backup-server/bbsit-snapshot-pull:54-66 | at every point of every behaviour, a run in daily/ can come to be seen unverified before the next publication, by any moves of both hosts, if and only if at least KEEP_DAILY newer ones are there |
| SnapshotProtocol.TornPromotionStays | ops/snapshot/backup-server/bbsit-snapshot-pull:148-153 | along every behaviour, a promotion cut off inside the copy holds part of what the run was when published, gains nothing while the directory exists, and is exactly that part until retention takes it |
| SnapshotProtocol.WholePromotionHolds | ops/snapshot/backup-server/bbsit-snapshot-pull:148-153 | along every behaviour, a promotion that ran to its end holds the run byte for byte as it was published, until retention takes it |
| SnapshotRetention.FirstRunMeaning | ops/snapshot/backup-server/bbsit-snapshot-pull:148-153 | the run a week or month stands for is the first one published in it |
| SnapshotRetention.KeySeqIncreasing | ops/snapshot/backup-server/bbsit-snapshot-pull:146-147 | for keys monotone in the run id the weeks or months seen form an increasing list ending in the newest |
| SnapshotRetention.KeysAfterPublish | ops/snapshot/backup-server/bbsit-snapshot-pull:148-153 | publishing adds a key exactly when it was not seen, and a pruned key is never re-added |
| SnapshotRetention.DroppedStaysDropped | ops/snapshot/backup-server/bbsit-snapshot-pull:63-65 | a key retention has dropped is dropped in every later history |
| SnapshotScripts.PullHost.RemoveFiles | ops/snapshot/backup-server/bbsit-snapshot-pull:51 | emptying a directory link by link leaves every other recovery point as it was |
| SnapshotScripts.PullHost.PruneNamedDirs | ops/snapshot/backup-server/bbsit-snapshot-pull:54-66 | the index loop over the sorted listing leaves as many entries as the quota allows, the ones with the greatest names, and no other class changes |
| SnapshotScripts.PullHost.ApplyRetention | ops/snapshot/backup-server/bbsit-snapshot-pull:68-73 | each of the four classes, failed/ included, is left with the greatest names up to its own quota; partial runs are untouched |
| SnapshotScripts.AllPrunedKeys | ops/snapshot/backup-server/bbsit-snapshot-pull:68-73 | the four passes together leave the tails of the weekly and monthly keys and the retained daily runs |
| SnapshotScripts.PullHost.CopyAll | ops/snapshot/backup-server/bbsit-snapshot-pull:149 | the hard-linked copy of a daily run has its contents, byte for byte |
| SnapshotScripts.PullHost.PromoteRun | ops/snapshot/backup-server/bbsit-snapshot-pull:140-154 | after promotion the weekly and monthly classes hold, up to retention, the first run of every key of the history |
| SnapshotScripts.PullHost.Receive | ops/snapshot/backup-server/bbsit-snapshot-pull:127-138 | a directory gains exactly the delivered files, and those that the latest run has with the same bytes are links to that run's; nothing else changes |
| SnapshotScripts.PullHost.FetchRun | ops/snapshot/backup-server/bbsit-snapshot-pull:199-215 | the partial directory holds exactly what was delivered, unchanged files being links to the latest run's, and no recovery point changes |
| SnapshotScripts.PullHost.TakeFilesets | ops/snapshot/backup-server/bbsit-snapshot-pull:222-238 | on success the directory holds the delivered files, every fileset and `.verified`, and, if there are filesets, a list that names exactly those, each with the hash of its content; if a fileset fails, exactly what had arrived is kept and nothing is listed or marked |
| SnapshotScripts.PullHost.Obtain | ops/snapshot/backup-server/bbsit-snapshot-pull:199-241 | the run is ready to publish, with every delivered file, every fileset, their list and the marker, exactly when rsync worked, the run passes its list and every fileset arrived; otherwise exactly what had arrived is kept in failed/; no recovery point changes |
| SnapshotScripts.PullHost.Pull | ops/snapshot/backup-server/bbsit-snapshot-pull:177-251 | one invocation: the exact condition for publishing; what is then in daily/ (every delivered file, every fileset, their list, the marker) and what a failed run leaves in failed/; the new history, `latest`, that incremental retention again equals recomputation from the full history, and that daily/ does so after any earlier crashes if the pull published or found nothing new |
| SnapshotRuns.PullNights | ops/snapshot/backup-server/bbsit-snapshot-pull:177-251 | with any exports, crashes and prunings on the source before each pull, and whatever fails, every sequence of uninterrupted pulls keeps daily/ the KEEP_DAILY newest runs ever published and weekly/ and monthly/ the first run of each of the KEEP newest keys |
| SnapshotRuns.PullFromInit | ops/snapshot/backup-server/bbsit-snapshot-pull:177-251 | the same from two empty hosts, as one path of the machine |
| SnapshotRuns.PullAfterCrashes | ops/snapshot/backup-server/bbsit-snapshot-pull:177-251 | after any behaviour of both hosts with crashes anywhere, a pull that publishes or finds nothing new leaves daily/ the KEEP_DAILY newest runs ever published |
| SnapshotRuns.PullWhatIsReady | ops/snapshot/backup-server/bbsit-snapshot-pull:182-246 | when nothing fails, the newest complete run of the source is published with every file it has there and every fileset, exactly if it is newer than the last one, and `latest` names it |
| SnapshotProtocol.NewestIsAboveOrLast | ops/snapshot/backup-server/bbsit-snapshot-pull:182-191 | the newest run of the source is newer than everything published, or the run published last |
| Deployments.DeployIsAtomic | internal/deployer/deployer.go:61-214 | running if and only if write, pull, up and health check worked, rolled back if and only if not and something was recorded and its write, up and health check worked; then every service runs exactly the target, or exactly the recorded, digest (its tag without one); one row is added with the matching verdict |
| Deployments.DeployLeaves | internal/deployer/deployer.go:158-214 | files and containers after a deploy, for every outcome: the deploy ran up to its first failure and, if it failed and something was recorded, the rollback up to its own |
| Deployments.NoTargetPinSurvives | internal/deployer/deployer.go:189-214 | after a rollback a container pinned to a digest is pinned to its service's recorded one |
| Deployments.WrittenResolves | internal/deployer/compose.go:76-93 | the two compose files together pin every service with a digest, leave the others on their tag and name no other service, whatever override existed before |
| Deployments.StartDropsPins | internal/deployer/deployer.go:292-326 | after a start that works every service runs its tag and no override file is left |
| Deployments.StartMeans | internal/deployer/deployer.go:292-326 | status, files and containers after a start, for every outcome; containers of other services stay |
| Deployments.StopMeans | internal/deployer/deployer.go:265-289 | after a stop that works no service named in the files runs and the status is stopped; one that fails leaves the status failed; files, log and digests stay |
| Deployments.DeployExplained | internal/deployer/deployer.go:70-155 | a deploy keeps current and previous equal to the `to` and `from` of the last success row and its row starts from the success row before |
| Deployments.RollbackTwice | internal/deployer/deployer.go:253-262 | two successful manual rollbacks in a row restore current and previous, and happen only when a current version was recorded |
| Deployments.RollbackGoesBack | internal/deployer/deployer.go:253-262 | straight after a successful manual rollback the next one deploys the version it replaced |
| Scheduling.RollbackRefusedIff | internal/deployer/deployer.go:253-262 | over every run of a project from its creation, a manual rollback is refused for want of a version if and only if fewer than two deployments have succeeded |
| Scheduling.RollbackStaysPossible | internal/deployer/deployer.go:253-262 | over every run, once a manual rollback has succeeded there is always a version to roll back to, whatever polls, deploys, rollbacks, starts and stops come in between |
| Deployments.CopyDigestMap | internal/deployer/deployer.go:430-439 | the copy equals the original, in whatever order it is walked |
| Deployments.BuildImageOverrides | internal/deployer/deployer.go:236-250 | exactly the services with a recorded digest are pinned, to their image at that digest; nothing when there is none |
| Deployments.Deployer.WriteComposeFiles | internal/deployer/compose.go:30-124 | the base file names every service's tag and the override is written, or removed when there are no pins |
| Deployments.Deployer.ExecuteDeploy | internal/deployer/deployer.go:158-187 | write, pull, up, ending at the first failure, and what is left on disk and running |
| Deployments.Deployer.ExecuteRollback | internal/deployer/deployer.go:189-214 | refused without recorded digests; otherwise write, up, health check |
| Deployments.Deployer.Deploy | internal/deployer/deployer.go:61-156 | with the lock taken nothing changes; otherwise state row, log and stack become those of the specification, and success is reported exactly when every stage worked |
| Deployments.Deployer.ManualRollback | internal/deployer/deployer.go:253-262 | a deploy of the previous digests, refused when there are none |
| Deployments.Deployer.Start | internal/deployer/deployer.go:292-326 | the whole state after a start, for every outcome, with the state row readable or not |
| Deployments.Deployer.Stop | internal/deployer/deployer.go:265-289 | the whole state after a stop, for every outcome, with the state row readable or not |
| Scheduling.DeploysExactlyWhen | internal/scheduler/scheduler.go:139-205 | a poll deploys if and only if all polled lookups succeeded, some digest differs from current, and the status read is not deploying |
| Scheduling.TargetIsRegistry | internal/scheduler/scheduler.go:178-202 | the target is what the registry said for every polled service and the desired digests of before for the others |
| Scheduling.PollRecords | internal/scheduler/scheduler.go:158-200 | whatever becomes of the poll, the digests of all polled services up to the first failed lookup are recorded as desired |
| Scheduling.SettledAfterSuccess | internal/scheduler/scheduler.go:139-205 | after a successful deploy the same answers change nothing |
| Scheduling.RolledBackIsRetried | internal/scheduler/scheduler.go:139-205 | after a failed or rolled back deploy the same answers deploy the same target again |
| Scheduling.FailedLookupKeeps | internal/scheduler/scheduler.go:163-176 | a failed lookup changes at most desired digests found before it |
| Scheduling.RunExplained | internal/deployer/deployer.go:70-155 | over every run of deploys, rollbacks, polls, starts and stops the log explains current and previous, and every row starts from the success row before it |
| Scheduling.Scheduler.ReconcileOne | internal/scheduler/scheduler.go:139-205 | the loop computes the specified poll, including the partial result at a failed lookup and the stale row it was given |
| Scheduling.Scheduler.TriggerManualReconcile | internal/scheduler/scheduler.go:208-219 | refused when the project or its state row cannot be read; otherwise a poll of the row just read, and while a deploy holds the lock it only records the desired digests |
| DeployRaces.BehaviourInv | internal/deployer/deployer.go:61-156 | lock, rows and program counters agree after every interleaving, crash and restart |
| DeployRaces.OneInProgress | internal/deployer/deployer.go:61-94 | at most one row is in progress, and while serving it belongs to the lock holder |
| DeployRaces.StepMovesRows | internal/db/db.go:839-887 | one step moves a row only from in_progress to success or failed, or from failed to rolled_back, and adds at most one |
| DeployRaces.RowsOnlyMoveForward | internal/db/db.go:860-887 | over any run success and rolled_back are final and failed may only become rolled_back |
| DeployRaces.ReturnMatches | internal/deployer/deployer.go:112-150 | a deploy that returns after inserting its row leaves it finished with the status it persisted, and the lock free |
| DeployRaces.PersistsVerdict | internal/deployer/deployer.go:112-150 | only a successful deploy moves current to previous and its target to current; the others persist their verdict and leave the recorded digests as they read them |
| DeployRaces.AloneIsDeploy | internal/deployer/deployer.go:61-156 | the steps of one caller with nobody else do to state row and log exactly what the serial deploy does, for every way it can end, and free the lock |
| DeployRaces.ReturnedStaysFinished | internal/deployer/deployer.go:112-150 | no later call, crash or restart changes such a row |
| DeployRaces.StartupIsClean | internal/db/db.go:839-856 | after the two resets no row is in progress and the project is not deploying; every other row and status is as it was |
| DeployRaces.StepKeepsHistory | internal/deployer/deployer.go:112-155 | without crashes every step keeps the digest history, if a write without the lock is fresh |
| DeployRaces.HistoryUnderFreshWrites | internal/deployer/deployer.go:112-155 | from any state with that history, every interleaving, restart and crash outside a deploy's last two statements keeps it, if every unlocked write puts back the digests that are there |
| DeployRaces.HistoryUnlessOverlap | internal/deployer/deployer.go:112-155 | from an empty database, over every interleaving, crash and restart, the log explains current and previous at every moment, if no deploy records its digests between an unlocked read and its write and no crash falls between a deploy's last two statements |
| DeployRaces.CutCommitLosesDigests | internal/deployer/deployer.go:143-150 | a crash between those two statements loses the new digests unless they were the recorded ones |
| DeployRaces.StaleWriteUndoesDeploy | internal/scheduler/scheduler.go:139-147 | a poll that overlaps a whole deploy can put the old digests and status back, and the log then no longer explains them |
| HubMachine.StepKeepsInv | internal/web/ws.go:57-177 | the hub invariant survives every step of loop, readers, writers and callers |
| HubMachine.NeverPanics | internal/web/ws.go:65-107 | no channel is closed twice or sent on after it was closed |
| HubMachine.ClosedIsFinal | internal/web/ws.go:65-107 | a closed channel stays closed and takes nothing more |
| HubMachine.SentIsMatched | internal/web/ws.go:84-104 | a client is sent the accepted events that matched its subscription at its turn, in order: all of them up to its first overflow, a subsequence after it |
| HubMachine.VerdictsAreSubscriptions | internal/web/ws.go:93-177 | over every run: a client is subscribed to what its own messages asked for, and an event matched it if and only if its project was among those at the client's turn |
| HubMachine.VisitServes | internal/web/ws.go:93-101 | one turn: an event of a project subscribed to is matched, and sent if fewer than 64 wait, else the client is cut and an unregister is under way; any other event changes nothing that is sent |
| HubMachine.OverflowIsUnregistered | internal/web/ws.go:93-101 | an overflowed client in the map has an unregister waiting; the first one served removes and closes it, any other does nothing |
| HubMachine.StopClosesAll | internal/web/ws.go:68-75 | after a stop every connection that registered is closed |
| HubMachine.BroadcastRuns | internal/web/ws.go:84-104 | a broadcast ends in the same state for every order of the client map, and is a path of the machine |
| HubMachine.BroadcastServes | internal/web/ws.go:93-101 | a broadcast gives every member that one turn and changes nothing else |
| HubMachine.Hub.OnEvent | internal/web/ws.go:57-63 | an event is queued unless 256 are waiting |
| HubMachine.Hub.ServeRegister | internal/web/ws.go:76-79 | a new client joins with an empty channel and no subscription |
| HubMachine.Hub.ServeUnregister | internal/web/ws.go:80-86 | the first unregister of a client closes its channel; a duplicate does nothing |
| HubMachine.Hub.ServeEvent | internal/web/ws.go:87-104 | the loop over the clients is the specified broadcast: every member subscribed to the project is sent the event if fewer than 64 wait for it, and no other client is |
| HubMachine.Hub.ServeStop | internal/web/ws.go:68-75 | the loop over the clients closes every member once |
| HubMachine.Hub.Receive | internal/web/ws.go:162-177 | subscribe replaces, unsubscribe removes, unsubscribe_all clears, anything else is ignored |
| Subscriptions.KeyOfNested | frontend/src/hooks/useWebSocket.ts:50-55 | of two sets of ids, one inside the other, the sorted comma-join tells which is which, whatever the ids, except no ids at all from the empty id alone |
| Subscriptions.SyncAgreesIff | frontend/src/hooks/useWebSocket.ts:40-63 | a sync after one subscribe or unsubscribe reaches agreement if and only if the change was not between no ids at all and the empty id alone |
| Subscriptions.SyncSends | frontend/src/hooks/useWebSocket.ts:40-63 | a sync sends at most one message, only on an open socket and only when the sorted comma-join of what is wanted is not what was sent last; it asks for exactly that list, or for none |
| Subscriptions.RunIsTidy | frontend/src/hooks/useWebSocket.ts:40-118 | after any calls, opens, closes and reads, for all ids, `lastSent` is the key of the set that comes of the messages in flight, and that is the wanted set up to the empty id |
| Subscriptions.RunAgrees | frontend/src/hooks/useWebSocket.ts:40-118 | without the empty id it is exactly the wanted set |
| Subscriptions.AgreesIff | frontend/src/hooks/useWebSocket.ts:40-118 | callers restricted to a set of ids always reach agreement if and only if the empty id is not in it |
| Subscriptions.CaughtUp | internal/web/ws.go:162-177 | with nothing in flight the server holds exactly the wanted set |
| Subscriptions.EmptyIdIsNotSent | frontend/src/hooks/useWebSocket.ts:50-55 | a subscription to the empty id alone is never sent |
| Subscriptions.BrowsedHeld | frontend/src/hooks/useWebSocket.ts:127-138 | whatever pages are opened, rendered, refreshed and left and whatever the network does, every page keeps a subscription of its own to its list and there are no others |
| Subscriptions.PagesAreServed | frontend/src/hooks/useWebSocket.ts:40-138 | with ids neither empty nor containing a comma, once the server has caught up it holds exactly the ids of what the pages show now |
| Subscriptions.ValidIdsAreServed | frontend/src/hooks/useWebSocket.ts:40-138 | the same for the project ids the server admits |
| Subscriptions.PagesFollowIff | frontend/src/hooks/useWebSocket.ts:133 | for non-empty ids written with some characters, every page always follows the list of its last render if and only if the comma is not one of them |
| Subscriptions.CommaIdIsMissed | frontend/src/hooks/useWebSocket.ts:133 | the input that makes the condition sharp: a change from an id with a comma to the two ids around it is missed |
| Subscriptions.Connection.SyncSubscriptions | frontend/src/hooks/useWebSocket.ts:40-63 | collecting, sorting, comparing and sending computes the specified sync |
| Subscriptions.Connection.Subscribe | frontend/src/hooks/useWebSocket.ts:109-112 | registers under a fresh id, then syncs |
| Subscriptions.Connection.Unsubscribe | frontend/src/hooks/useWebSocket.ts:114-117 | removes that subscriber only, then syncs |
| Subscriptions.Connection.OnOpen | frontend/src/hooks/useWebSocket.ts:70-75 | a new socket starts from an empty server set and sends again |
| Secrets.AadInjective | internal/db/secrets.go:138-144 | different secret columns have different associated data, whatever the ids contain |
| Secrets.OpensOnlyAtHome | internal/db/secrets.go:95-121 | a sealed value opens exactly under the column it was sealed for |
| Secrets.OpensUnder | internal/db/secrets.go:138-144 | the exact text a column's values open under |
| Migration.StepKeepsInv | internal/db/db.go:115-163 | at every statement, and after a stop at any of them, secrets left in pages or log mean that the scrub is pending or a row is in the clear |
| Migration.MeaningSurvives | internal/db/db.go:216-332 | however often startup is cut short, every secret keeps its meaning |
| Migration.PlainMeaning | internal/db/db.go:230-232 | an empty environment and `null` stand for `{}`, any other text for itself |
| Migration.CompletedIsClean | internal/db/db.go:115-144 | a startup that completes leaves nothing in the clear in rows, pages or log, the flag cleared, and every secret opening under its own row to its text, an empty or `null` environment to `{}`, a sealed one to what it was |
| Migration.SecondStartup | internal/db/db.go:216-332 | a second run of the stage changes nothing and is refused if and only if the first sealed an environment that is not JSON, the empty and the `null` one counting as `{}` |
| Migration.ClassificationRefusesIff | internal/db/db.go:165-190 | the stage that follows refuses in the first startup already, if and only if such an environment belongs to a project without a classification |
| Migration.StartupRuns | internal/db/db.go:115-144 | the uninterrupted startup is a run of the machine |
| Migration.Database.ScanProjects | internal/db/db.go:216-246 | collects exactly the environments in the clear, the empty and the `null` one as `{}`, and refuses exactly when a sealed one does not open or is not JSON |
| Migration.Database.ScanTunnels | internal/db/db.go:248-290 | collects exactly the tunnels with a secret in the clear, and refuses exactly when a sealed field does not open |
| Migration.Database.MigrateV8Secrets | internal/db/db.go:216-332 | the two scans and the transaction commit the specified migration or change nothing; afterwards every environment is sealed and opens to its text, the empty and the `null` one to `{}`, and what was sealed is untouched |
| Redaction.RoundTrip | internal/web/project_secrets.go:14-107 | resolving a redacted project against its stored self gives the stored values and the same secret set, with the environment supplied or omitted, and the classification supplied, omitted or dropped when empty |
| Redaction.UpdateMeans | internal/web/project_secrets.go:42-107 | an update is refused exactly when it lists a variable it does not have or masks one without a stored secret; otherwise a mask stands for the stored value, also of a variable made readable, any other value for itself, and the secrets are the listed variables, or without a list the old ones and every variable that is new |
| Redaction.CreateAcceptsIff | internal/web/project_secrets.go:42-107 | a new project is accepted exactly when it classifies only its own variables and gives every secret a value |
| Redaction.CreateMeans | internal/web/project_secrets.go:42-107 | what an accepted new project holds: its own values, and as secrets those it lists or all of its variables |
| Redaction.TableStaysSound | internal/web/api.go:149-209 | over every sequence of creates, updates and imports secrets stay within the variables and no stored secret is the mask |
| Redaction.HandleMeans | internal/web/api.go:149-209 | a create only adds, an update only changes what is there, an import does either; what is refused changes nothing and no other row is touched |
| Redaction.ResolvedIsSound | internal/web/api.go:329-362 | what is resolved and stored is sound |
| Redaction.PersistedKeeps | internal/db/db.go:1064-1088 | storing and reading back keeps the environment and the secret set, and an empty list, and only that, reads back as missing |
| Redaction.UnclassifiedIsSecret | internal/db/db.go:1064-1088 | a project stored without a classification reads back with every variable secret |
| Redaction.EditWithoutChange | internal/web/api.go:176-209 | reading a project and sending it back changes nothing in the table |
| Redaction.NothingRevealedSilently | internal/web/project_secrets.go:109-123 | a value that used to be masked becomes readable only if its key is reported |
| Redaction.RedactedEnvVars | internal/web/project_secrets.go:14-27 | exactly the secret values are replaced by eight asterisks |
| Redaction.Classify | internal/web/project_secrets.go:52-73 | an omitted classification keeps the old secrets and makes every new variable secret; a supplied one is taken as it is and must name existing variables |
| Redaction.ResolveProjectSecrets | internal/web/project_secrets.go:42-107 | success and result are the specified ones, whose meaning `UpdateMeans` and `CreateMeans` give, for every order in which the maps are walked |
| Redaction.DeclassifiedSecretEnvKeys | internal/web/project_secrets.go:109-123 | the sorted list of keys that were secret, are still there and are secret no longer |
| Paths.CleanIdempotent | internal/web/api.go:538-551 | cleaning a cleaned path changes nothing |
| Paths.CleanMeans | internal/web/api.go:538-551 | a cleaned path leads where the path leads, is rooted like it, is never empty and has no double or final slash |
| Paths.RelLeads | internal/web/admin.go:272-279 | where there is a relative path between two places, following it from the one leads to the other |
| Paths.RelDown | internal/web/admin.go:272-279 | straight down there always is one, and it is the names on the way |
| Paths.FoldOfCleaned | internal/deployer/compose.go:170-174 | a relative path may be cleaned before it is walked from any directory |
| Paths.JoinOfCleaned | internal/deployer/compose.go:170-174 | joining with a cleaned relative path leads to the same place |
| Paths.RelativeIff | internal/web/api.go:538-551 | an absolute path is rewritten if and only if it lies strictly below an absolute stack directory and the next name does not begin with two dots |
| Paths.OthersAreCleaned | internal/web/api.go:538-551 | a relative path, and any path without a stack directory, is only cleaned; the empty one stays empty |
| Paths.NormaliseKeepsMeaning | internal/web/api.go:538-551 | the normalised path resolves to the cleaned form of where the original resolved, for every path and stack directory but the empty pair |
| Paths.NormaliseIdempotent | internal/web/api.go:538-551 | normalising twice is normalising once |
| Projects.DefaultingIdempotent | internal/web/api.go:387-532 | a second pass over an accepted project accepts it and changes nothing |
| Projects.AcceptedIff | internal/web/api.go:387-532 | a project is accepted exactly when, if new, its id is of lower-case letters, digits and inner hyphens, every service has a name, and a backup has its three fields, an absolute output and a service of that name |
| Projects.ServicesConverted | internal/web/api.go:404-460 | the services come from the project, else from the legacy fields, else from the custom document as a list or as one service, and which field lands in which |
| Projects.CustomConverted | internal/web/api.go:418-460 | a custom project without services becomes a form project with the variables of its document over its own; any other keeps mode, document and variables |
| Projects.ServicesDefaulted | internal/web/api.go:462-531 | every service keeps what it has, gets its missing tag and pull policy and normalised volumes; only the service backed up gains a mount, and only when none is there |
| Projects.VolumesStay | internal/web/api.go:461-479 | every volume keeps its place, its order and its container path; at most the backup mount is added |
| Projects.BackupIsMounted | internal/web/api.go:492-532 | an accepted backup has its output directory mounted in the service it names |
| Projects.Draft.ValidateServices | internal/web/api.go:461-479 | accepted exactly when every service has a name; then every service and volume is defaulted |
| Projects.Draft.ValidateAndInjectBackup | internal/web/api.go:492-532 | the exact condition for acceptance, and the mount that is added only when missing |
| Projects.Draft.ValidateAndDefault | internal/web/api.go:387-487 | the stages in order, on the project in place |
| Bundle.GuardMeans | internal/web/admin.go:272-279 | the exporter's test on the relative name selects exactly the volumes strictly inside the stack directory |
| Bundle.VolumePathIs | internal/web/admin.go:260-279 | where a volume is packed: its cleaned place is the stack directory's and then that path, which is not empty and does not begin by going up |
| Bundle.ParentRefIff | internal/web/admin.go:295-301 | a cleaned relative path escapes exactly when its first component is two dots |
| Bundle.NamedExtracts | internal/web/admin.go:416-450 | an entry the exporter names is accepted by the importer and read back as the same path |
| Bundle.ExtractStaysInside | internal/web/admin.go:416-470 | an entry that leads out of the stack directory is refused; an accepted one writes what it names, makes at most the directories above it and leaves everything else |
| Bundle.ExtractAcceptsIff | internal/web/admin.go:416-470 | an entry for the stack directory itself is skipped, one inside it is accepted exactly when no file stands in its way and, for a file, no directory in its place |
| Bundle.Walk | internal/web/admin.go:327-348 | a walk of a directory writes exactly its directories and regular files, at every depth, and skips everything else |
| Bundle.AddDirToTar | internal/web/admin.go:315-349 | one volume: missing, file, link to a file or directory; an error exactly when a file stands where a directory above it should be |
| Bundle.WriteProjectTarball | internal/web/admin.go:248-292 | project.yaml first, then exactly the directories and regular files below the volumes in the stack, and volumes that are files or links to files, nested and repeated volumes included |
| Bundle.ImportOfExport | internal/web/admin.go:369-477 | into an empty stack directory every entry is accepted; then a file is there if and only if it is a regular file at or below a volume, or a volume that links to one, with that content, a directory if and only if it is one at or below a volume or leads to a volume, and nothing else |
| Bundle.StackDir.ImportTarball | internal/web/admin.go:369-484 | accepted exactly when every entry is; a refused entry leaves what came before it |
| Bundle.ExportThenImport | internal/web/admin.go:248-484 | the same for the two ends together, for exactly the volumes that lie in the stack directory |
| Dns.CoversIsLabelSuffix | internal/cfapi/client.go:151-163 | the suffix test is a test on whole labels |
| Dns.FindZoneForHostname | internal/cfapi/client.go:151-163 | the first of the longest zones that cover the hostname, none exactly when no zone does |
| Dns.CaseAndDotIgnored | internal/cfapi/client.go:151-163 | neither the case of zone and hostname nor a final dot of the hostname matters |
| Dns.ListZones | internal/cfapi/client.go:124-146 | every zone is listed up to the cap of fifty pages, the first 2500 beyond it; an error exactly when one of the pages asked for fails |
| Dns.EnsuredConverges | internal/tunnel/manager.go:193-219 | after a repair the status is ok, a second repair writes nothing, and the records that do not route are the same in the same order |
| Dns.EnsuredMeans | internal/tunnel/manager.go:193-219 | what the repair writes: nothing if the first CNAME or address record is a proxied CNAME to the target, else such a record in its place, under its id and with that name, or a new one at the end when there is none |
| Dns.LeftAloneIsGood | internal/tunnel/manager.go:193-219 | what the repair leaves alone has status ok |
| Dns.GoodIsLeftAloneIff | internal/tunnel/manager.go:337-391 | a name with status ok is left alone by the repair if and only if no A or AAAA record comes before the first CNAME |
| Dns.ClassifyDns | internal/tunnel/manager.go:337-391 | the two passes pick the first CNAME, else the first address record, and judge it |
| Dns.ClassifyMeans | internal/tunnel/manager.go:337-391 | the status judges the first CNAME, its target before its proxying; without one it shows the first address record, and without that the name is missing |
| Dns.Cloudflare.EnsureCname | internal/tunnel/manager.go:193-219 | the repaired records and the number of writes, for every outcome of the calls; other names are untouched |
| Dns.Cloudflare.SyncDns | internal/tunnel/manager.go:155-188 | every hostname whose calls worked reads ok, or no_zone without a zone; failures of one do not spoil another |
| Dns.NoZoneIff | internal/tunnel/manager.go:314-333 | no_zone is reported exactly when no zone's labels end the hostname's |
| Dns.RoutesFor | internal/tunnel/manager.go:271-333 | the status of every route, in order, without a token, without the zone listing, and with record listings that fail |
| Ingress.MatchingHas | internal/tunnel/manager.go:420-441 | exactly the hostnames of that tunnel with a name and a positive port, of enabled projects that are not the system's |
| Ingress.CollectIngressFor | internal/tunnel/manager.go:420-449 | the result is sorted by hostname and a stable permutation of the matching routes |
| Ingress.StableOrderUnique | internal/tunnel/manager.go:445-448 | there is only one such order, whatever sorting algorithm is used |
| Strings.LeqMeans | internal/tunnel/manager.go:445-448 | the order of hostnames is that of the first byte that differs, a prefix coming first |
| Ingress.ConfigInjective | internal/tunnel/manager.go:473-494 | for strings without newlines the text determines, and is determined by, the tunnel id and the ordered hostname and port list |
| Ingress.ConfigLinesAre | internal/tunnel/manager.go:473-494 | the file line by line: the four fixed lines with the tunnel id, two lines for every route with its hostname and decimal port, and the catch-all |
| Ingress.NewlineCollides | internal/tunnel/manager.go:473-494 | without that condition two different lists can print alike |
| Ingress.ConfigExactIff | internal/tunnel/manager.go:473-494 | among strings that may use the characters of a printed route, the text determines tunnel and routes if and only if they may not use a newline |
| Ingress.ConfigFile.WriteConfigYml | internal/tunnel/manager.go:473-494 | the file holds the text, and a change is reported exactly when it held another |
| Ingress.RewriteAfter | internal/tunnel/manager.go:473-494 | against a file it wrote itself a change is reported exactly when the routes differ |

## Left out

- Assumptions: `rename` is atomic, checksums are collision free, authenticated encryption is ideal, week and month keys are monotone in the run id, service names are unique, database writes succeed, Cloudflare lists records in a stable order, and payload files never use the scripts' own base names.
- Power loss: the snapshot models stop a script at any step but keep what it wrote; the `sync` calls are not modelled.
- `prune_run_dirs` of the export script as a loop: it has the shape of `prune_named_dirs`, which is; its steps for ready/ are in `SnapshotSource`, those for failed/ are not.
- A configured fileset that is an empty directory: filesets are modelled by their files, so such a pull writes no fileset list here.
- Local commands of the pull script (`printf`, `sync`, `mv`, `ln`, `cp`) succeed unless the script is cut off; a failing one is covered by the crash steps only.
- The last `check_capacity` of a pull, rsync's own partial directory and its removal, and the log lines.
- Weekly and monthly promotions make no claim under a crash beyond `TornPromotionStays`.
- Deployments.Deployer.WriteComposeFiles: does not model custom mode, the `.env` file or the creation of volume directories beyond their failing; assumes that removing a stale override succeeds.
- `reconcileAll` of the scheduler: three independent early exits (disabled, nothing polled, checked recently) around `ReconcileOne`.
- Error texts, timestamps, triggers and the events a deploy emits.
- Other projects: the deployment models follow one project; locks, rows and stacks of different projects are independent.
- The hub's write, read and ping deadlines, and the upgrade of the HTTP connection; events always marshal.
- More than one live browser socket at a time, the handlers called on arriving events, and the order in which the effects of several pages run within one render: pages act one at a time.
- Migration.CompletedIsClean: starts at the V8 stage; the earlier and later migrations are row-by-row copies. VACUUM is taken to put a complete image of the rows in the log.
- Restoring a backup under a new id, which turns an explicit empty classification into a missing one.
- The YAML parser is an arbitrary function; ports, platform and extra options of a service are carried along unread.
- Bundle.ImportOfExport: symbolic links to directories above or at a volume, special files as a volume, modes and times are left out; the YAML text of the project is carried unread.
- Bundle.StackDir.ImportTarball: the extraction only; decoding, defaulting and storing the imported project around it are `Projects` and `Redaction`.
- Dns.FindZoneForHostname: lower-casing covers ASCII letters.
- HTTP handlers, sessions, the backup service, the command-line client and the web pages.
