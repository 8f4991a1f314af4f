# Verification of rc

rc runs Git repositories, worktrees and workspaces on Kubernetes. This project
models its coordination code in Dafny and proves what that code has to
guarantee. `dafny verify dfyconfig.toml` checks every file.

The model has four parts.

- **Hold sets.** A list of holders and an irreversible fence live in one
  annotation of one object, changed only by version-guarded writes.
  `HoldSet`, `Admission` and `HoldStates` give the list, the two conflict
  policies and the in-place changes; `CompareAndSwap` runs any number of clients
  against one versioned object and proves the update loop linearizable;
  `UpdateLoop` is the loop itself, against interference; `Fence` proves what
  every reachable set and every closed set keeps. `HoldMap` shows that on lists
  and on finite maps the changes mean the same, and `RepositoryProtocol` and
  `WorktreeCleanup` use the maps to prove containment, exclusion and safe
  cleanup for whole systems of reconcilers that may crash between any two API
  calls. `HoldRefinement` ties the operations of the update loop to the maps.
  `RepositoryRaces` and `WorktreeRaces` give the exact conditions where the code
  falls short, and `WorktreeRuns` the runs. `LegacyDecode` covers the encodings
  of older controllers.
- **Fences and one-shot work on single objects.** `WorkspaceFence` (execution
  admission against guarded deletion), `OneShot` (at most one Job per request)
  and `ChildClaims` (a Worktree's child claim is pinned once recorded).
- **The rc-kube supervisor.** `ProcessOutput` (bounded transcript and fan-out to
  lossless and droppable clients), `Supervisors` (at-most-once launches across
  failures, crashes and restarts) and `History` (pruning).
- **Codecs and indexes.** `InputFrames`, `AuditGraph` and `VolumeClaims`.

A protocol is a total step function over an explicit world, and a run is any
sequence of steps, so a lemma about `Run(steps)` holds for every interleaving.
Code that changes fields in place is a class; what a schedule, a file system or
an API server may do between two steps is an argument (`plan`, `World`,
`Faults`, `Piece`), so a method's contract holds for every such behaviour.

Results that differ from a plain reading of the source:

- A WorktreeExec has no finalizer. One that is deleted between its admission and
  the start of its Pod, before its Job is created or after, can be swept, and
  its Pod then starts on a Worktree whose guards are gone
  (`WorktreeRuns.OrphanOutlivesGuards`, `PodlessJobOutlivesGuards`). It also reads
  its Job and its Pods through the cache
  (`internal/controller/repositories/worktreeexec_controller.go:100-148`), so a
  pass that misses a new Job ends the exec and releases its key, and the Pod
  starts after the guards fell (`ForgottenJobOutlivesGuards`).
  `WorktreeRaces.GuardsFailExactly` is the exact condition; as long as no owner
  goes astray in one of these ways the guards hold (`CalmRunsAreSafe`).
- A sweep lists the Pods once for all holders it judges
  (`internal/controller/repositories/holders.go:190-206`), so an exec that
  vanishes after that with its Pod running loses its key
  (`WorktreeRaces.SweepMissesLateOwner`). The cleanup's own Pod list still keeps
  the guards up for it.
- Status writers read a cache. If that shows nothing for a RepositoryExec, or a
  terminal predecessor of the same name, the write is skipped and the pass goes on
  (`internal/controller/repositories/oneshot_job.go:105-111`), so a Job can be
  created unrecorded and, when it vanishes, again (`OneShot.TwoJobs`). At most
  one Job is created as long as none was created while no status named it. An
  unrecorded Job can also lose its hold on the Repository, exactly as long as it
  stays unrecorded (`RepositoryRaces.LosesHoldExactly`).
- The input-frame reader compares the caller's buffer length as 32 bits
  (`internal/rckube/input_frames.go:84`). The clipping works for exactly the
  lengths that `InputFrames.Bounded` describes; `ClipOverflows` is the concrete
  failing length 2^32. Read promises the round trip for all lengths for which the
  clipping works.
- After an oversized frame was reported, a caller that reads on is given the
  bytes of that frame (`internal/rckube/input_frames.go:75-87`). Read promises
  nothing for such a call.
- A token map decodes to one list in every iteration order exactly if tokens
  with one key agree on the holder's name; distinct keys are sufficient, not
  necessary (`LegacyDecode.OrderIrrelevantExact`).
- A process ID consisting of the root separator passes the path segment check
  (`internal/rckube/supervisor.go:235`); `Supervisors.SafeSegmentExact` says
  exactly which IDs pass. At-most-once does not depend on it.
- The branch for a lost child claim
  (`internal/controller/repositories/worktree_controller.go:142-147`) cannot be
  reached: a missing recorded claim was already sent to storage deletion at
  line 133. The model has no such branch.
- When the Repository is gone, a RepositorySync whose recorded Job vanished ends
  as RepositoryNotFound rather than JobLost
  (`internal/controller/repositories/repositorysync_controller.go:85-90`).
- A legacy import may add a holder to a closed set
  (`HoldMap.ImportEntersClosedSet`), so the results about the fence name the
  imported keys as their only exception.

## Model

| member | source | states |
|---|---|---|
| `HoldSet.Find` | internal/holdset/holdset.go:54-61 | a holder is found exactly if its key is in the list, and it has that key |
| `HoldSet.Without` | internal/holdset/holdset.go:63-68 | removing a key keeps every other holder, and shortens the list exactly if the key was there |
| `HoldSet.PutView` | internal/holdset/holdset.go:70-82 | after Put the list is strictly sorted with unique keys; as a map only the put key changed, and the first start time is kept |
| `HoldSet.WithoutView` | internal/holdset/holdset.go:63-68 | Remove deletes exactly one key from the map |
| `HoldSet.SortedListsWithEqualViewsAreEqual` | internal/holdset/holdset.go:79-81 | a strictly sorted list is determined by its map, so equal sets are stored as equal lists |
| `HoldStates.HoldState.Lookup` | internal/holdset/holdset.go:54-61 | the search loop returns the first holder with the key |
| `HoldStates.HoldState.Remove` | internal/holdset/holdset.go:63-68 | the in-place removal leaves the fence alone and reports whether the key was present |
| `HoldStates.HoldState.Put` | internal/holdset/holdset.go:70-82 | the in-place change is the specified Put |
| `HoldStates.HoldState.Admit` | internal/holdset/holdset.go:101-116 | the in-place change, result and changed flag are the specified admission |
| `HoldStates.HoldState.RemoveStale` | internal/holdset/holdset.go:226-238 | Sweep's write removes all candidates' keys and returns those that were still held |
| `HoldStates.RemovableExact` | internal/holdset/holdset.go:226-242 | what Sweep returns has exactly the candidate keys that were held, once each |
| `Admission.RepositoryConflicts` | internal/repositoryaccess/access.go:81-91 | the loop returns exactly the holders incompatible with the candidate |
| `Admission.WorktreeConflicts` | internal/worktreeownership/access.go:41-53 | the loop returns exactly the holders incompatible with the candidate |
| `Admission.Conflicts` | internal/repositoryaccess/access.go:81-91 | a holder blocks exactly if its mode is incompatible with the candidate's |
| `Admission.WorktreeAllowsOneWriter` | internal/worktreeownership/access.go:28-53 | pairwise compatibility on a Worktree is the same as at most one writer |
| `Admission.RepositoryAllowsOneMode` | internal/repositoryaccess/access.go:81-91 | pairwise compatibility on a Repository is the same as empty, one lone writer, or non-writers in one mode |
| `Admission.AdmitExact` | internal/holdset/holdset.go:101-116 | admission changes the set exactly if it is open and unopposed, changes one key only, answers without a write exactly when the holder is there with its mode, and keeps the policy |
| `Admission.RetainExact` | internal/worktreeownership/access.go:189-222 | Retain downgrades or removes one Workspace, touches no other holder, and keeps the policy |
| `Admission.ImportExact` | internal/controller/repositories/holders.go:115-140 | importing a legacy writer keeps the policy even in a closed set, and changes one key only |
| `Admission.RemoveAllGood` | internal/holdset/holdset.go:226-238 | removing swept keys keeps the policy and every other holder |
| `CompareAndSwap.Linearizable` | internal/holdset/holdset.go:132-174 | for every interleaving of loads, saves, conflicts, lost responses and foreign writes, the stored object is the committed changes in save order, and every result is what the change decides at its position |
| `CompareAndSwap.GuardedSaveIsCurrent` | internal/holdset/store.go:33-118 | a save that succeeds acts on the object its load saw, also when the Lease is created or the incarnation is pinned |
| `CompareAndSwap.VersionIsPosition` | internal/holdset/store.go:53-68 | version and incarnation never run ahead of the committed changes |
| `CompareAndSwap.SameVersionSameObject` | internal/holdset/store.go:53-118 | two positions of the history with one version hold the same object |
| `UpdateLoop.Cell.Save` | internal/holdset/store.go:53-118 | a save succeeds exactly if its snapshot is current, and then executes the request as one event |
| `UpdateLoop.Cell.Update` | internal/holdset/holdset.go:132-156 | the retry loop ends with this request as the last event, or with an unchanged decision or an absent object seen inside the call, or exhausted with one foreign event per attempt |
| `Fence.PolicyHolds` | internal/holdset/holdset.go:101-116 | every position of every history of the object satisfies its conflict policy and is strictly sorted |
| `Fence.ReachableSetsObeyPolicy` | internal/worktreeownership/access.go:41-53 | the policy holds in every state any clients can reach, through mode changes, downgrades and imports |
| `Fence.ClosedStaysFenced` | internal/holdset/holdset.go:176-242 | no single operation on a closed set adds a key, raises a mode or reopens it, except a legacy import of its own key |
| `Fence.FenceIsPermanent` | internal/holdset/holdset.go:185-203 | once closed, an incarnation's set is closed at every later position and holds nobody new but imported writers |
| `Fence.CloseReportsTheSet` | internal/holdset/holdset.go:185-203 | a Close that returned saw a closed set whose holders it reports |
| `Fence.EmptyCloseIsFinal` | internal/holdset/holdset.go:185-203 | after a Close that reported nobody, the set is closed and empty in every later state without a legacy import |
| `HoldMap.AdmitMeans` | internal/holdset/holdset.go:101-116 | admission on lists refines admission on maps |
| `HoldMap.RemoveMeans` | internal/holdset/holdset.go:205-242 | removal of keys on lists refines removal on maps |
| `HoldMap.ReleaseMeans` | internal/holdset/holdset.go:176-183 | releasing a key on lists refines dropping it from the map |
| `HoldMap.RetainMeans` | internal/worktreeownership/access.go:189-222 | Retain on lists refines Retain on maps |
| `HoldMap.ImportMeans` | internal/controller/repositories/holders.go:115-140 | the legacy import on lists refines the import on maps |
| `HoldMap.MeaningAllowed` | internal/worktreeownership/access.go:41-53 | a list obeys a policy exactly if its map does |
| `HoldRefinement.DecideMeans` | internal/holdset/holdset.go:132-242 | for every operation, deciding on the list and taking its meaning is taking its meaning and applying the operation to the map |
| `HoldRefinement.AppliedAllowed` | internal/worktreeownership/access.go:41-53 | every operation on the map keeps the policy |
| `HoldMap.ImportEntersClosedSet` | internal/controller/repositories/holders.go:135-138 | a closed set that lets an import in, which admission refuses |
| `RepositoryProtocol.EveryRunKeepsInv` | internal/controller/repositories/repository_operation.go:27-75 | the invariant of all owners, snapshots and the sweeper holds after every run, also when a sync loses its Repository while its Job runs and when a status write is missed |
| `RepositoryProtocol.LiveConsumersAreHeld` | internal/repositoryaccess/access.go:163-182 | every live Job or unbound clone claim has its owner in the access Lease with its mode, behind its finalizer, except a Job whose name was never recorded and whose owner was deleted or ended |
| `RepositoryProtocol.WritersNeverOverlap` | internal/repositoryaccess/access.go:163-182 | a live Job is the only live consumer of the Repository, with the same exception |
| `RepositoryRaces.LosesHoldExactly` | internal/controller/repositories/repository_operation.go:27-48 | from every reachable state, a live Job can come to run without its hold exactly if its name is not recorded |
| `RepositoryRaces.SealedIsHeld` | internal/controller/repositories/repositoryexec_controller.go:104-179 | a recorded Job keeps its hold through every continuation |
| `RepositoryRaces.UnrecordedJobLosesHold` | internal/controller/repositories/repository_operation.go:27-48 | the run in which a deleted exec releases its key while its unrecorded Job runs |
| `RepositoryProtocol.PermissionIsBacked` | internal/holdset/holdset.go:103-106 | a pass that was told Admitted without a write still finds its key recorded before it creates |
| `WorktreeCleanup.EveryRunKeepsInv` | internal/controller/repositories/worktree_cleanup.go:38-83 | the invariant of creators, the hold set, the legacy Lease and the cleanup pass holds after every run, with owners that vanish at any moment unless a finalizer holds them, Jobs whose Pod does not exist yet, and execs whose cache hides their Job |
| `WorktreeCleanup.CheckStepsKeepInv` | internal/controller/repositories/worktree_cleanup.go:51-82 | after the Lease check and a list of Pods nobody has a consumer but owners that vanished between their admission and the start of their Pod, or took their Job for absent |
| `WorktreeCleanup.JudgeKeepsInv` | internal/controller/repositories/holders.go:183-213 | what a sweep calls stale has no owner and no consumer that its Pod list could show |
| `WorktreeCleanup.ImportSaveKeepsInv` | internal/controller/repositories/holders.go:110-152 | the legacy writer is recorded before its Lease is deleted, with a crash possible in between |
| `WorktreeRaces.GuardsFallOnlyWhenDrained` | internal/controller/repositories/worktree_controller.go:313-376 | in every run, once a finalizer of the Worktree or its volume is gone, the set is closed and empty, no legacy Lease is left, and only an owner without a finalizer that vanished between its admission and the start of its Pod, or took its Job for absent, may have or create a consumer |
| `WorktreeRaces.CalmRunsAreSafe` | internal/controller/repositories/worktree_cleanup.go:38-83 | if no owner vanishes in that window or takes its Job for absent, fallen guards exclude every Pod |
| `WorktreeRaces.GuardsFailExactly` | internal/controller/repositories/worktreeexec_controller.go:176-202 | from every reachable state, guards can fall under a running Pod without a further owner going astray exactly if one vanished whose Job or pass can still end in a Pod, or took its Job for absent before its Pod existed, or went astray with its Pod running after the last Pod list |
| `WorktreeRaces.DangerIsReal` | internal/controller/repositories/worktreeexec_controller.go:176-202 | every such state leads on to fallen guards under a running Pod |
| `WorktreeRaces.FallIsFinalExactly` | internal/controller/repositories/worktree_controller.go:313-376 | once the guards fell, no continuation runs a Pod exactly if there is no Job or Pod and no pass has passed its second look |
| `WorktreeRaces.RunningCreatorsAreRecorded` | internal/worktreeownership/access.go:119-157 | the creator of a Job or Pod is in the set or its Lease, unless the owner vanished between its admission and the start of its Pod, took its Job for absent, or vanished under a sweep that had listed the Pods, or with its Lease |
| `WorktreeRaces.SweepMissesLateOwner` | internal/controller/repositories/holders.go:183-213 | from every sweep that has listed the Pods, an exec that then vanishes with its Pod running loses its key |
| `WorktreeRuns.OrphanOutlivesGuards` | internal/controller/repositories/worktreeexec_controller.go:176-202 | the run in which an exec deleted before its create outlives the guards |
| `WorktreeRuns.PodlessJobOutlivesGuards` | internal/controller/repositories/holders.go:60-75 | the run in which an exec deleted after its create, before its Pod exists, outlives the guards |
| `WorktreeRuns.ForgottenJobOutlivesGuards` | internal/controller/repositories/worktreeexec_controller.go:100-148 | the run in which an exec that is never deleted takes its new Job for lost, releases its key and outlives the guards |
| `WorktreeRuns.LateOwnerIsSwept` | internal/controller/repositories/holders.go:183-213 | a run from the start in which a sweep takes the key of an exec whose Pod runs |
| `WorktreeRuns.CollectedLeaseHidesWriter` | internal/worktreeownership/legacy.go:55-76 | a run in which a legacy exec's Pod runs with neither key nor Lease |
| `WorkspaceFence.EveryRunKeepsInv` | internal/workspaceadmission/admission.go:43-115 | the invariant of the Workspace, its executions, deleters and reopeners holds after every run, whether or not no-op writes bump the version |
| `WorkspaceFence.AdmissionIsOpen` | internal/workspaceadmission/admission.go:48-71 | an admission that commits finds the fence open and no deletion in progress |
| `WorkspaceFence.GuardedDeleteMissesNothing` | internal/controller/workspaces/workspace_retention_controller.go:312-336 | after a guarded DELETE every execution ever admitted to that incarnation is terminal |
| `WorkspaceFence.NoAdmissionAfterGuardedDelete` | internal/workspaceadmission/admission.go:73-115 | no later step admits an execution to it |
| `OneShot.Request.SetAt` | internal/controller/repositories/oneshot_job.go:95-148 | a merge patch from a stale read never loses the Job name and never rewrites a terminal result; a request the cache does not show is left alone; otherwise a gentle pass records the given outcome from any stale read |
| `OneShot.Request.MergePatch` | internal/controller/repositories/oneshot_job.go:117-147 | the patch without a version guard keeps the recorded statuses evolving |
| `OneShot.Request.LockedPatch` | internal/controller/repositories/oneshot_job.go:151-173 | a version-locked patch is written exactly as computed, and only on top of the newest status |
| `OneShot.Request.SetResult` | internal/controller/repositories/repositorysync_controller.go:242-266 | the version-locked result is written only from the newest status; a missing request is an error, a terminal predecessor ends the call |
| `OneShot.Request.BackfillCompletedAt` | internal/controller/repositories/oneshot_job.go:151-173 | a missing completion time becomes the condition's transition time, once |
| `OneShot.Request.ReleaseOperation` | internal/controller/repositories/repository_operation.go:27-75 | the finalizer stays exactly while an owned Job still has to stop |
| `OneShot.Request.Protect` | internal/controller/repositories/repositoryexec_controller.go:112-117 | no pass goes on without the finalizer, and a deleting object refuses it |
| `OneShot.Request.CreateJob` | internal/controller/repositories/repositoryexec_controller.go:163-179 | a Job is created behind the finalizer, under the recorded name or as an unrecorded one, which a cache that follows this request never allows |
| `OneShot.Request.ReflectJob` | internal/controller/repositories/repositoryexec_controller.go:242-263 | a finished owned Job becomes the matching terminal result with the Job's time |
| `OneShot.Request.ReconcileExec` | internal/controller/repositories/repositoryexec_controller.go:82-179 | only an open, present request that records no Job gets one, and an undisturbed pass without a Job gives it one; a recorded Job that vanished ends as JobLost in every pass without a crash or deletion, stale caches included |
| `OneShot.Request.ReconcileSync` | internal/controller/repositories/repositorysync_controller.go:43-148 | the same for a sync, whose version-locked result needs current reads and for which a missing Repository comes first |
| `OneShot.Request.CompleteSync` | internal/controller/repositories/repositorysync_controller.go:182-228 | a finished sync Job becomes SyncSucceeded, ResultUnavailable without a readable commit, or CommandFailed |
| `OneShot.Request.Passes` | internal/controller/repositories/repositoryexec_controller.go:104-179 | over any passes with crashes between any two calls at most one Job is created unless one was created unrecorded, which a cache that follows this request never allows; statuses only evolve |
| `OneShot.TwoJobs` | internal/controller/repositories/oneshot_job.go:105-111 | a request that the cache never shows gets a second Job |
| `OneShot.MergeIsSafe` | internal/controller/repositories/oneshot_job.go:117-147 | what a merge patch computed from an earlier status does to the newest one |
| `OneShot.TerminalIsFinal` | internal/controller/repositories/oneshot_job.go:108-116 | a terminal condition and its completion time never change once set |
| `VolumeClaims.Name` | internal/volumeclaim/claim.go:35-58 | a claim name never exceeds 253 bytes |
| `VolumeClaims.NameInjective` | internal/volumeclaim/claim.go:35-58 | names that fit are equal exactly for equal role, owner name and Environment revision |
| `VolumeClaims.FullNameInjective` | internal/volumeclaim/claim.go:39-50 | untruncated names are equal exactly for equal role, owner name and Environment revision, for all names and all revisions |
| `VolumeClaims.ResolveIsSafe` | internal/volumeclaim/claim.go:83-130 | a recorded name is kept; a claim without an error is owned, not terminating and the one under the resolved name; conflicts are reported exactly for claims the owner may not use |
| `VolumeClaims.PreflightChecksResolved` | internal/volumeclaim/claim.go:104-141 | Preflight gives the answer of the name Resolve picks when nothing is recorded and no owned legacy claim exists |
| `ChildClaims.Worktree.SetStatus` | internal/controller/repositories/worktree_controller.go:665-711 | a status patch from a cache that lags, shows nothing or shows a predecessor never changes a recorded name |
| `ChildClaims.Worktree.CreateChild` | internal/controller/repositories/worktree_controller.go:150-220 | a child is created only while no name is recorded |
| `ChildClaims.Worktree.Publish` | internal/controller/repositories/worktree_controller.go:223-248 | an existing child is published under the name it was resolved by |
| `ChildClaims.Worktree.Reconcile` | internal/controller/repositories/worktree_controller.go:95-246 | a pass keeps a recorded name and then creates no child; a closed fence or a deletion creates none; an undisturbed new Worktree gets the typed name |
| `ChildClaims.Worktree.Passes` | internal/controller/repositories/worktree_controller.go:123-147 | the same over any sequence of passes |
| `LegacyDecode.FoldTokens` | internal/repositoryaccess/access.go:114-127 | the loop folds every token once, in some order |
| `LegacyDecode.DecodeRepository` | internal/repositoryaccess/access.go:93-128 | the decoded list is sorted, if names agree it holds exactly the holders of the held tokens, and it obeys the policy exactly if the mode is not write or at most one holds |
| `LegacyDecode.DecodeWorktree` | internal/worktreeownership/access.go:60-85 | recorded holders stay, the old fence is honoured, merged readers keep the policy, and if names agree nothing else is added or lost |
| `LegacyDecode.OrderIrrelevantExact` | internal/repositoryaccess/access.go:114-127 | every iteration order gives the same list exactly if tokens with one key agree on the name |
| `LegacyDecode.OrderMatters` | internal/worktreeownership/access.go:76-82 | two tokens with one key and different names give different lists in two orders |
| `LegacyDecode.SameKeySameHolder` | internal/repositoryaccess/access.go:115-125 | two tokens with one key can differ in the name alone |
| `ProcessOutput.RecordedIsLongestPrefix` | internal/rckube/supervisor.go:697-725 | a transcript that began empty is the longest prefix of the output within the limit, and the flag tells exactly whether output was cut |
| `ProcessOutput.SupervisedProcess.Record` | internal/rckube/supervisor.go:697-725 | file, length and flag follow the output; the notice is appended once |
| `ProcessOutput.SupervisedProcess.ReadTranscript` | internal/rckube/supervisor.go:631-639 | a replay is the recorded output and never the notice |
| `ProcessOutput.HandToAll` | internal/rckube/supervisor.go:726-739 | in any iteration order each droppable client takes the chunk or is dropped when full, and the lossless ones are returned |
| `ProcessOutput.SupervisedProcess.Distribute` | internal/rckube/supervisor.go:694-740 | recording and handing out are one step, and the lossless clients are owed the chunk |
| `ProcessOutput.SupervisedProcess.SendTo` | internal/rckube/supervisor.go:675-692 | a lossless client takes the chunk, or has left, or blocks the sender |
| `ProcessOutput.SupervisedProcess.FinishWrite` | internal/rckube/supervisor.go:684-691 | a write returns only when no lossless client is owed its chunk |
| `ProcessOutput.SupervisedProcess.Attach` | internal/rckube/supervisor.go:445-488 | replay and flag belong together; a duplicate ID is refused; a finished process registers nobody |
| `ProcessOutput.SupervisedProcess.Receive` | internal/rckube/supervisor.go:516-521 | the stream writes the oldest buffered chunk next |
| `ProcessOutput.SupervisedProcess.EndStream` | internal/rckube/supervisor.go:516-540 | a stream ends as slow only if dropped, and with success only drained and after exit |
| `ProcessOutput.SupervisedProcess.Detach` | internal/rckube/supervisor.go:498-502 | a stream that returned is removed without disturbing the others |
| `ProcessOutput.SupervisedProcess.Exit` | internal/rckube/supervisor.go:601-629 | exit is published only after the last write returned |
| `ProcessOutput.Removed` | internal/rckube/supervisor.go:71-82 | done is closed once, and only the registered client is forgotten |
| `ProcessOutput.SupervisedProcess.Run` | internal/rckube/supervisor.go:447-540 | every schedule of output, sends, attaches, detaches and exit keeps what all streams were promised |
| `ProcessOutput.StreamsAreFaithful` | internal/rckube/supervisor.go:447-540 | a lossless stream's replay, written, buffered and owed bytes are all output, and a successful one wrote all of it; every stream wrote a prefix; a lossless one is never slow |
| `Supervisors.SafeSegmentExact` | internal/rckube/supervisor.go:235-237 | exactly which process IDs pass the path segment check |
| `Supervisors.Supervisor.Start` | internal/rckube/supervisor.go:226-293 | a launch happens only for a free identity; another UID is refused while the owner file exists; a failed start is rolled back or recorded as the identity's outcome |
| `Supervisors.Supervisor.Attempt` | internal/rckube/process_start.go:26-98 | running and recorded failures keep the owner file, a rollback removes it, a crash leaves it |
| `Supervisors.Supervisor.Finish` | internal/rckube/supervisor.go:601-629 | the process ends as stopped or exited, and its record follows unless the write fails |
| `Supervisors.Supervisor.RecoverHistory` | internal/rckube/history.go:133-155 | unfinished records become Lost, finished ones and owner files stay |
| `Supervisors.Supervisor.PrepareTranscriptScope` | internal/rckube/transcript_scope.go:10-64 | a foreign directory loses transcripts and records but no owner file, and the marker is published last |
| `Supervisors.Supervisor.PruneHistory` | internal/rckube/history.go:229-280 | only prunable directories go, the count is exact, and without a failure exactly the policy's choice is left |
| `Supervisors.SelectAndPrune` | internal/rckube/history.go:237-280 | reading, filtering, sorting and removing together spare everything that is not prunable |
| `Supervisors.Supervisor.Run` | internal/rckube/supervisor.go:226-293 | over any calls, failures, crashes and restarts two launches of one ID have a pruning of it between them, and a launched identity stays owned until pruned |
| `Supervisors.LaunchKeepsInv` | internal/rckube/process_start.go:34-70 | a launch of an identity without an owner file keeps at-most-once |
| `Supervisors.PruneKeepsInv` | internal/rckube/history.go:260-271 | removing directories, also in part, keeps at-most-once |
| `History.CollectFinished` | internal/rckube/history.go:241-250 | the list has exactly the finished, dated, matching records that do not run, once each |
| `History.SortNewestFirst` | internal/rckube/history.go:251-253 | the list is sorted newest first and is a permutation |
| `History.ApplyPolicy` | internal/rckube/history.go:259-280 | how far the loop got, what it removed and counted, also when a removal fails |
| `History.PrunedExact` | internal/rckube/history.go:259-277 | what each directory is after the loop's turns |
| `History.DropCountExact` | internal/rckube/history.go:259-280 | the count is the number of directories that are gone |
| `History.OthersAreKept` | internal/rckube/history.go:242-249 | unfinished, undated, running and non-matching processes are never touched |
| `History.KeptWithinLimits` | internal/rckube/history.go:260-271 | kept records are within the entry limit and the age limit |
| `History.DroppedForCause` | internal/rckube/history.go:260-264 | a record goes only for its age or because enough others completed no earlier |
| `History.KeptForCause` | internal/rckube/history.go:260-264 | a record stays only if it is young enough and fewer than the limit completed after it |
| `History.KeptAreNewest` | internal/rckube/history.go:251-264 | kept records completed no earlier than any dropped for overflow |
| `InputFrames.Uint32RoundTrip` | internal/rckube/input_frames.go:39-45 | a big-endian length reads back |
| `InputFrames.ParseEncode` | internal/rckube/input_frames.go:26-53 | every framing parses to exactly its input and the end, whatever follows |
| `InputFrames.ParsePrefix` | internal/rckube/input_frames.go:55-94 | every strict prefix parses to a prefix of the input and is never the end |
| `InputFrames.WriteInputFrames` | internal/rckube/input_frames.go:33-53 | on success a framing of exactly the input; otherwise a strict prefix of one |
| `InputFrames.ReadFull` | internal/rckube/input_frames.go:68-74 | the header read gets all its bytes in any pieces, or everything there is and an error |
| `InputFrames.FrameReader.Read` | internal/rckube/input_frames.go:63-94 | each call returns the next part of what the stream parses to, and end of file only at the marker |
| `InputFrames.ReadAll` | internal/rckube/input_frames.go:55-94 | any buffers read exactly the parsed bytes and then its ending |
| `InputFrames.Transfer` | internal/rckube/input_frames.go:26-94 | over all splits of input, connection and buffers the receiver gets exactly the input and then its end; cut anywhere, a prefix and an error |
| `InputFrames.ClipExact` | internal/rckube/input_frames.go:84-86 | the buffer lengths for which the clipping respects every frame |
| `InputFrames.ClipOverflows` | internal/rckube/input_frames.go:84-86 | a length of 2^32 reads past the frame |
| `InputFrames.OverreadsFrame` | internal/rckube/input_frames.go:63-94 | the reader, called with that length, hands out the end marker as input |
| `AuditGraph.IndexKeys` | internal/audit/graph.go:25-27 | a key leads to the last resource listed under it |
| `AuditGraph.NewGraph` | internal/audit/graph.go:21-40 | the incoming index and the adjacency lists agree with the plain inventory for every key |
| `AuditGraph.IndexReference` | internal/audit/graph.go:29-37 | a reference is entered exactly if it resolves, under its target and both ways |
| `AuditGraph.IncomingExact` | internal/audit/graph.go:28-37 | the incoming index of a key lists exactly the resolved references to it |
| `AuditGraph.PointsExact` | internal/audit/scan.go:270-276 | with unique keys a reference resolves to a resource exactly if it matches it |
| `AuditGraph.Roots` | internal/audit/graph.go:129-136 | every rc resource is queued, and nothing unconnected |
| `AuditGraph.Expand` | internal/audit/graph.go:138-144 | all neighbours are found, new ones are queued |
| `AuditGraph.Search` | internal/audit/graph.go:137-146 | the worklist search ends, inside every closed set, with a closed result |
| `AuditGraph.Managed` | internal/audit/graph.go:128-147 | the managed set is exactly the keys reachable from rc resources over references in either direction |

## Left out

- ProcessOutput.SupervisedProcess.SendTo: the order of the lossless clients is picked as the sends go instead of once at distribution, which allows more schedules.
- ProcessOutput.SupervisedProcess.Record: failed transcript writes, after which the source stops copying output.
- InputFrames.FrameReader.Read: promises nothing for unbounded buffer lengths and after an oversized frame.
- RepositoryProtocol.WritersNeverOverlap: a Job and its Pods are one consumer, which the owner's finalizer outlives, and finalizers are honoured; owners deleted by force are not covered.
- WorktreeRaces.GuardsFallOnlyWhenDrained: no new legacy Lease appears after the start, as no current program creates one, and finalizers are honoured.
- LegacyDecode.DecodeRepository: one reading of the clock stands in for a missing creation time, where the source reads it for each token.
- LegacyDecode.DecodeWorktree: one reading of the clock stands in for a missing creation time; what the merge holds is stated for a stored list in key order, as this code writes it.
- JSON, base64 and SHA-256: records are values, and a digest is any function to 64 characters.
- Informer caches, watches, garbage collection and RBAC, except where a status writer or a WorktreeExec reads a lagging cache.
- The Pod and claim listings behind the gate's consumer check: their answer is arbitrary, and the results do not rely on it.
- WorktreeExec: beyond its part in the cleanup races, its status handling would only repeat the one-shot handling with weaker promises.
- Repository and sync result publication on the parent Repository (setRepositoryStorageReady, setParent): guarded field updates without further state.
- Expiry of finished requests, cleanup status texts and blocking messages.
- Workspace runtime reconciliation; only the guarded deletion of retention is a step of the fence.
- Terminal sizes, the foreground client, the published client count, process input and stop escalation of the supervisor.
- Credential projection, SSH configuration and aliases during a start: any of them may fail, which the start covers.
- History listing, logs and inspection: read-only projections.
- Audit findings and blockers computed from the graph.
- The command line, kubeconfig, sockets, native processes and Windows code.
