# Deployment orchestrator: a Dafny model and its proofs

The orchestrator takes a request to deploy an application, checks it against
policy, stores it as a deployment, and drives it through a pipeline: resolve a
Helm umbrella chart, compose it with the caller's and the platform's values,
push the result to an OCI registry, create and sync an Argo CD application, and
poll it until it is healthy. The process can crash anywhere, any save can fail
with or without having been applied, and a deployment is driven again from what
is stored.

Two components carry the hard properties, and the model joins them at the
compose step.

* **The executor.** `Driver` gives one drive as a small-step machine that stops
  in front of every call. `Executor` is the executor in its own imperative form
  (a handler with a lock, a mutable aggregate, a poll loop); its `Execute` is
  proved to be exactly a run of that machine on the answers it was given.
  `System` puts any number of drives, creates and crashes together in any
  interleaving. `Invariant` and `Outcome` hold what each step keeps,
  `Guarantees` what holds of every run, `Redrive` what a redrive can still do.
* **The values tree.** `Values` gives the merge a meaning on trees and proves
  its laws. `Composer` is the merge on Go's mutable maps and slices, proved to
  refine it whatever the iteration order. `Allowlist` and `Reserved` are the two
  checks of a caller's overlay, `PlatformLayer` the values the platform puts on
  top.

`Persistence` (a field-wise upsert) and `Admission` (the gates of a create) link
them. `Lifecycle`, `ValueObjects`, `Resources`, `Aggregate`, `ResourcePolicy`,
`Publisher`, `Versions` and `Ports` are the parts they stand on; `Text` and
`Wrappers` hold strings and results.

## What the proofs found

* **A redrive does not always resume.** The comment on `run` (execute.go:143-146)
  says that a redrive resumes where it left off. No stage takes CHART_COMPOSED
  or DEGRADED. `Guarantees.CompletableIff` is the exact condition: a stored
  deployment that is not terminal, and that no drive is at work on, can still be
  completed if and only if it is at neither of them.
  `Guarantees.AcceptedCanStrand` gives, for every accepted and saved create, a
  run that leaves it at each of the two, and `Guarantees.StrandedForever` shows
  that it stays there.
* **A COMPLETED record can carry an error.** `Outcome.CompletedInErrorIff` is the
  exact condition: the completing save reported an error, and the save of that
  failure went through. `Guarantees.AcceptedCanErr` gives a run for every
  accepted and saved create. Otherwise only FAILED records carry an error
  (`Guarantees.StoredIsSound`).
* **The allowlist does not bound overlays with an empty top-level key.** The dot
  is left out while the written prefix is empty. `Allowlist.BoundedIff` is the
  exact condition on the path, `Allowlist.OverlayIsBoundedEverywhere` one a caller
  can check on the overlay.
* **The merge is not associative**: `Values.NotAssociative`, with the exact
  condition in `Values.AssociativeIff`.
* **An application subchart called `sqldatabase` loses the database block** to
  its bind: `PlatformLayer.OneDatabaseIff`.
* **Environments that agree in four characters share deployment ids**, for one
  application, day and commit: `ValueObjects.SameIDIff`.
* **The upsert is not an overwrite in general**; `Persistence.UpsertOverwritesIff`
  says when it is, and the executor always meets it (`Invariant.SaveKeeps`).

## Model

| member | source | states |
|---|---|---|
| Guarantees.CompletableIff | internal/application/deployment/execute.go:144-307 | for every run: a stored non-terminal deployment with no drive at work on it has a continuation that stores it COMPLETED if and only if it is neither CHART_COMPOSED nor DEGRADED |
| Guarantees.AcceptedCanComplete | internal/application/deployment/create.go:166-180 | for every run: an accepted create whose save succeeds is stored as RECEIVED, and has a continuation that stores it COMPLETED |
| Guarantees.StrandedForever | internal/application/deployment/execute.go:208-239 | a deployment stored at CHART_COMPOSED or DEGRADED without a drive at work keeps its record unchanged and is never pushed again, whatever happens afterwards |
| Guarantees.CrashStrands | internal/application/deployment/execute.go:223-226 | a crash in front of the push leaves the deployment stored at CHART_COMPOSED with nobody driving it |
| Guarantees.AcceptedCanStrand | internal/application/deployment/execute.go:208-293 | for every run: an accepted create whose save succeeds has a continuation that leaves it stranded at CHART_COMPOSED, and one that leaves it stranded at DEGRADED |
| Guarantees.AcceptedCanErr | internal/application/deployment/execute.go:295-302 | for every run: an accepted create whose save succeeds has a continuation that stores it COMPLETED with an error |
| Guarantees.PublishedAtMostOnce | internal/application/deployment/execute.go:208-239 | Publish is called at most once for a deployment over any crashes, redrives, failing saves and interleavings |
| Guarantees.EffectsComeInOrder | internal/application/deployment/execute.go:208-306 | every push follows a successful resolve of its chart; every CreateOrUpdate comes directly after a successful check of the same project, repository and destination, and after a successful push whose reference its RepoURL, Chart and Version reassemble; every Sync follows a successful CreateOrUpdate, and every poll a successful Sync, of the same application |
| Guarantees.EffectsAreProper | internal/application/deployment/execute.go:366-402 | every outside call is for a created deployment and its own application: its chart source is resolved; what is pushed goes to its own reference, by its parts and with the digest the registry answered; what is checked and applied is in its project, namespace and cluster, under its name, with its labels and provenance; it is synced and polled under that name |
| Guarantees.StoredIsSound | internal/application/deployment/execute.go:147-306 | in every reachable store a record loads, is consistent with its status (metadata, artifact and tag, application, health, completion time), carries an error only when FAILED or COMPLETED, and claims only effects that took place: HEALTHY or COMPLETED was seen Healthy by a poll |
| Guarantees.RedriveNeverCorrupt | internal/application/deployment/execute.go:154-158 | a redrive of any stored record passes the three nil guards of run; it returns at once exactly at CHART_COMPOSED and DEGRADED, and otherwise starts its stage |
| Guarantees.StatusNeverGoesBack | internal/domain/deployment/entity.go:196-203 | between any two moments of a run a stored status has moved along the reflexive-transitive closure of the transition relation |
| Guarantees.ActionAdvances | internal/application/deployment/execute.go:351-361 | one action of the process moves any stored status along that closure or not at all, also when a save is lost |
| Guarantees.OneDriver | internal/application/deployment/execute.go:82-98 | a deployment has at most one active drive, and is in the in-flight set exactly while it has one |
| Guarantees.SavesAreReloaded | internal/domain/deployment/entity.go:206-210 | in every run a drive saves to the key it loaded, although SetMetadata derives the id anew, and FindByID returns what a successful save wrote |
| Guarantees.PushedIsResolved | internal/application/deployment/execute.go:176-218 | every pushed chart is the one the last successful resolve of its deployment returned: its values are the three-layer merge over the resolved ones, under the resolved values key, and its version names the version resolved, the start and the commit |
| Guarantees.PushedAsAuthorized | internal/application/deployment/execute.go:453-503 | every pushed chart comes from a create whose resources were authorized for its environment; with a declared database, and a resolved values key other than `sqldatabase`, its one list entry carries the application's name and the stored size, version, storage and database name, for the deployment's team and environment on the platform's engine, and the bind carries the same name |
| Guarantees.PushedKeepsReserved | internal/application/deployment/create.go:105-113 | at every platform-owned path of every pushed chart, with or without a database, stands what resolved chart and platform layer give without the overlay, or the layer alone where the overlay erased the chart's default; under `sqldatabase` it cannot even erase |
| Guarantees.PushedHoldsLayer | internal/application/deployment/execute.go:412-419 | every non-map of the platform layer stands unchanged in every pushed chart |
| Guarantees.PushedWithinAllowlist | internal/application/deployment/create.go:117-129 | with an enforcing allowlist every pushed chart keeps the resolved chart's value at each path unrelated to the environment's entries and apart from the platform's blocks, unless it lies below an empty top-level key that the overlay has |
| Guarantees.MovesAreDriven | internal/application/deployment/execute.go:109-142 | an undisturbed drive of the process is a run of the driver's machine |
| Redrive.RedriveCompletes | internal/application/deployment/execute.go:147-306 | a redrive whose every call succeeds returns nil and has stored COMPLETED exactly when it did not start at CHART_COMPOSED or DEGRADED |
| Redrive.GoodDrive | internal/application/deployment/execute.go:147-306 | a drive whose every call succeeds makes exactly the calls of the status it loads (18 from RECEIVED), with the push eleven and the completing save one call before its end |
| Redrive.StrandedUnmoved | internal/application/deployment/execute.go:208-306 | however it is answered, a drive that loads CHART_COMPOSED or DEGRADED leaves the store as it was |
| Redrive.DegradedIsStored | internal/application/deployment/execute.go:284-292 | a poll that answers Degraded leaves the deployment stored as DEGRADED before its failure is saved |
| Executor.DeployExecutionHandler.Execute | internal/application/deployment/execute.go:109-142 | a deployment in flight is left alone; otherwise the lock is given back and what happened is exactly a run of the machine on the answers received; nil means that no call was refused and that it is done or nothing was to be done, an error that the failure was recorded |
| Executor.DeployExecutionHandler.Locked | internal/application/deployment/execute.go:116-141 | load, terminal check, run, and on an error the mark and the save whose outcome is ignored |
| Executor.DeployExecutionHandler.Run | internal/application/deployment/execute.go:147-202 | the guarded stages one after another reach the machine's return, or stand at its failure with the same error |
| Executor.DeployExecutionHandler.DeployStages | internal/application/deployment/execute.go:241-306 | the stages after the push, likewise |
| Executor.DeployExecutionHandler.Step | internal/application/deployment/execute.go:351-361 | the transition, then the save; after a failed save memory is ahead and the error names the status |
| Executor.DeployExecutionHandler.EnsureArchive | internal/application/deployment/execute.go:179-196 | resolves only when there is no archive, and stamps the version of the resolved chart |
| Executor.DeployExecutionHandler.ResolveStage | internal/application/deployment/execute.go:198-206 | METADATA_GENERATED to CHART_RESOLVED, keeping the archive for the next stage |
| Executor.DeployExecutionHandler.ComposeStage | internal/application/deployment/execute.go:208-239 | CHART_RESOLVED to ARTIFACT_PUBLISHED, with CHART_COMPOSED saved before the push |
| Executor.DeployExecutionHandler.Compose | internal/application/deployment/execute.go:213-222 | the package holds the resolved chart and the three-layer merge over its values; a refusal is an error before the transition |
| Executor.DeployExecutionHandler.PublishPackage | internal/application/deployment/execute.go:226-238 | the push, the recorded artifact and the save of ARTIFACT_PUBLISHED |
| Executor.DeployExecutionHandler.CreateStage | internal/application/deployment/execute.go:241-257 | the project check comes before CreateOrUpdate, asks for the same project, repository and destination, and ends the stage when it fails |
| Executor.DeployExecutionHandler.ApplySpec | internal/application/deployment/execute.go:250-256 | CreateOrUpdate with the spec derived from the artifact, the recorded application and the save |
| Executor.DeployExecutionHandler.SyncStage | internal/application/deployment/execute.go:259-270 | the sync of the metadata's application and the save of SYNCING |
| Executor.DeployExecutionHandler.PollHealth | internal/application/deployment/execute.go:311-348 | at most timeout / interval + 2 Status calls; true exactly when the last observed health is Healthy; false without an error only on Degraded or after the deadline |
| Executor.DeployExecutionHandler.PollTurn | internal/application/deployment/execute.go:317-347 | one turn of the loop: a verdict, an error, or a wait that ends no earlier than the next tick |
| Executor.DeployExecutionHandler.PollOnce | internal/application/deployment/execute.go:318-328 | one Status call, recorded on the aggregate and saved |
| Executor.DeployExecutionHandler.Await | internal/application/deployment/execute.go:339-346 | the deadline is looked at before the wait; a cancelled wait is an error |
| Executor.DeployExecutionHandler.PollStage | internal/application/deployment/execute.go:272-293 | SYNCING to HEALTHY, or to DEGRADED with an error after its save |
| Executor.DeployExecutionHandler.CompleteStage | internal/application/deployment/execute.go:295-304 | HEALTHY to COMPLETED, where a failed save is an error although the aggregate is COMPLETED |
| Executor.DeployExecutionHandler.FailAndSave | internal/application/deployment/execute.go:130-138 | the mark and the save after an error |
| Executor.DeployExecutionHandler.Acquire | internal/application/deployment/execute.go:84-92 | false exactly when the id is in flight already; afterwards it is in flight |
| Executor.DeployExecutionHandler.Release | internal/application/deployment/execute.go:94-98 | the id, and no other, leaves the in-flight set |
| Executor.TicksFit | internal/application/deployment/execute.go:313-315 | a tick within the timeout is one of the first timeout / interval |
| Outcome.NilMeansDone | internal/application/deployment/execute.go:109-142 | a whole drive that returns nil has stored COMPLETED without an error, or had loaded a terminal status, CHART_COMPOSED or DEGRADED and changed nothing |
| Outcome.ErrorMeansFailed | internal/application/deployment/execute.go:128-140 | a whole drive that returns an error found nothing and changed nothing, or its last act was to save the aggregate with that error, FAILED, or COMPLETED exactly when the completing save was the call that failed |
| Outcome.FailsAsFailed | internal/application/deployment/execute.go:128-140 | every failing call leaves memory FAILED with the error, except the save of COMPLETED |
| Outcome.FailsIffRefused | internal/application/deployment/execute.go:147-348 | a drive fails on exactly the answers that refuse it: a failed call other than the save of a poll, no archive or no values key to compose with, or DEGRADED saved |
| Outcome.RefusalEnds | internal/application/deployment/execute.go:128-140 | after a refusal nothing more is done outside, and the drive returns an error once the save of its failure is answered |
| Outcome.NilMeansUnrefused | internal/application/deployment/execute.go:128-141 | a drive that returns nil was refused nothing |
| Outcome.LoadDecides | internal/application/deployment/execute.go:116-128 | the load ends the drive with an error exactly when it finds nothing, and with nil exactly at a terminal status, CHART_COMPOSED or DEGRADED |
| Outcome.CompletedInErrorIff | internal/application/deployment/execute.go:128-140 | a whole drive leaves a COMPLETED record with an error if and only if its completing save was answered with an error and the save of that failure was applied |
| Outcome.CompletedCarriesError | internal/application/deployment/execute.go:295-302 | the two steps of it, with the error stored and returned |
| Outcome.ReturnsNil | internal/application/deployment/execute.go:119-141 | the only two steps at which a drive returns nil, and what the store holds then: after a save, COMPLETED without an error |
| Outcome.AtMostNineMoves | internal/application/deployment/execute.go:147-306 | however often a drive polls and whatever it is answered, it makes at most nine transitions |
| Outcome.StepSpends | internal/application/deployment/execute.go:351-361 | one step follows at most one edge, paid from the longest path left |
| Outcome.StoreAdvances | internal/application/deployment/execute.go:351-361 | a step moves the stored status along the closure whatever the save answers, under the key the drive loaded |
| Outcome.DriveKeeps | internal/application/deployment/execute.go:109-142 | everything known of a deployment holds along a whole drive of it |
| Invariant.StepKeeps | internal/application/deployment/execute.go:147-361 | every answer to every call keeps store, memory, effects and push count of its deployment consistent and touches no other deployment |
| Invariant.SaveKeeps | internal/adapter/outbound/persistence/deployment.go:116-131 | a save of what a drive holds, applied or not, keeps the stored record sound, and a successful one makes it the aggregate in memory |
| Invariant.GuardsNeverFire | internal/application/deployment/execute.go:154-158 | on a sound aggregate every guard of run passes and each transition asked for is allowed |
| Invariant.EffectsJustified | internal/application/deployment/execute.go:241-306 | a drive makes a call only after what the call relies on has happened, and pushes only what was composed for its deployment |
| Invariant.GroundsKeep | internal/application/deployment/execute.go:171-239 | the archive, values key and version a drive carries from stage to stage are those of the last successful resolve, and it applies only after a project check that succeeded |
| Invariant.PushedBefore | internal/application/deployment/execute.go:366-371 | the artifact a drive holds was pushed, and its parts reassemble its reference |
| Invariant.FailKeeps | internal/domain/deployment/entity.go:234-242 | in a drive, whose aggregate is past RECEIVED when a call can fail, marking as failed keeps the deployment sound, and the move is refused for a completed one only |
| Invariant.CanFail | internal/domain/deployment/entity.go:230-242 | the move to FAILED is refused exactly from RECEIVED and from the terminal statuses |
| Invariant.PublishKeeps | internal/application/deployment/execute.go:226-238 | after a push the artifact's tag is the recorded deployment version and the push is on record |
| Invariant.CreateKeeps | internal/application/deployment/execute.go:241-257 | after CreateOrUpdate the recorded application has the metadata's name |
| Invariant.PollKeeps | internal/application/deployment/execute.go:318-328 | recorded health Healthy has been observed by a poll of the application |
| System.RunKeeps | internal/application/deployment/execute.go:82-142 | the invariant of locks, records, drives and effects holds after every sequence of creates, drives, releases and crashes |
| System.InvFromOne | internal/application/deployment/execute.go:82-98 | a step that touches one deployment keeps the invariant of all the others |
| System.BeginKeeps | internal/application/deployment/execute.go:84-92 | taking a lock keeps the locks exactly the driven deployments |
| System.CrashKeeps | internal/application/deployment/execute.go:26-30 | a crash, which empties the in-flight set and keeps the store, keeps the invariant |
| System.FreshIsSound | internal/application/deployment/create.go:172-175 | the initial save of an admitted deployment, applied or not, leaves a sound record or none |
| Values.PathLaw | internal/adapter/outbound/oci/composer.go:136-153 | at every path the merge has the shape (nothing, a map, or this non-map) that the high tree has there, and else the shape of the low tree, except below a non-map of the high tree |
| Values.MergeIffPathLaw | internal/adapter/outbound/oci/composer.go:136-153 | the merge is the one and only tree that obeys the path law |
| Values.ShapesDetermine | internal/adapter/outbound/oci/composer.go:136-153 | trees with the same shape at every path are equal |
| Values.PlatformLeafWins | internal/adapter/outbound/oci/composer.go:65-67 | every non-map of the platform layer appears unchanged in the three-layer result |
| Values.MergeIdentity | internal/adapter/outbound/oci/composer.go:139-153 | the empty tree is a two-sided identity |
| Values.MergeIdempotent | internal/adapter/outbound/oci/composer.go:139-153 | a tree merged with itself is itself |
| Values.MergeAbsorbs | internal/adapter/outbound/oci/composer.go:139-153 | merging the same layer a second time changes nothing |
| Values.CoversIffAbsorbed | internal/adapter/outbound/oci/composer.go:139-153 | the high tree absorbs the low one exactly when it has all its keys at every shared map |
| Values.AssociativeIff | internal/adapter/outbound/oci/composer.go:139-153 | the merge associates on a triple exactly when no non-map of the middle tree lets something of the first resurface below the third |
| Values.NotAssociative | internal/adapter/outbound/oci/composer.go:139-153 | a triple on which it does not |
| Composer.DeepMerge | internal/adapter/outbound/oci/composer.go:139-153 | the merge in place, in any iteration order, shows the merge on trees, in fresh maps and slices only, and changes neither input |
| Composer.MergeKey | internal/adapter/outbound/oci/composer.go:141-151 | one turn of the loop: two maps merge, anything else is replaced by a copy |
| Composer.MergeTurn | internal/adapter/outbound/oci/composer.go:141-151 | the merge with the keys visited so far grows by exactly the key of the turn, so the order does not matter |
| Composer.DeepCopyMap | internal/adapter/outbound/oci/composer.go:155-161 | a copy that shows the same tree in fresh nodes |
| Composer.DeepCopyValue | internal/adapter/outbound/oci/composer.go:163-176 | likewise for maps, generic slices and scalars |
| Composer.ComposeValues | internal/adapter/outbound/oci/composer.go:65-67 | the composed values show platform over overlay over defaults and share no mutable node with any of them |
| Allowlist.OverlayIsBounded | internal/adapter/outbound/policy/allowlist.go:114-169 | an overlay without violations leaves every path whose dotted form is related to no entry as the chart had it, when the first key is not empty |
| Allowlist.OverlayIsBoundedEverywhere | internal/adapter/outbound/policy/allowlist.go:114-169 | an overlay without violations and without an empty top-level key leaves every unrelated path as the chart had it |
| Allowlist.BoundedIff | internal/adapter/outbound/policy/allowlist.go:147-169 | the bound holds for every chart, overlay and list of entries exactly at the paths whose first key is not empty; for lists as cleanKeys leaves them, also at those whose written form starts with space |
| Allowlist.Validate | internal/adapter/outbound/policy/allowlist.go:105-131 | the violations are the leaves not covered by the environment's own entries, or by the default ones when it has none of its own, each once, sorted; rejection exactly when enforcing and there is one |
| Allowlist.EntriesAdmit | internal/adapter/outbound/policy/allowlist.go:133-142 | an entry admits whatever an overlay sets at its path or beneath it |
| Allowlist.FlattenKeys | internal/adapter/outbound/policy/allowlist.go:144-169 | the written form of every leaf, non-root empty maps included, each leaf once |
| Allowlist.Walk | internal/adapter/outbound/policy/allowlist.go:149-166 | the recursive closure reports exactly the leaves below its prefix, in any iteration order |
| Allowlist.WrittenIsDotted | internal/adapter/outbound/policy/allowlist.go:155-159 | the written form is the dotted path when the first key is not empty |
| Allowlist.CleanKeys | internal/adapter/outbound/policy/allowlist.go:92-100 | exactly the trimmed non-empty entries |
| Reserved.AcceptsIffNeverSets | internal/application/deployment/resources.go:58-106 | the check accepts exactly the overlays that, over every chart, can put no value of their own at a platform-owned path |
| Reserved.AcceptedLeavesReserved | internal/application/deployment/resources.go:58-106 | an accepted overlay leaves the SQL block as the chart has it, and each bind block too unless a non-map above it erases it |
| Reserved.ReservedIsPlatforms | internal/application/deployment/resources.go:58-106 | under any platform layer an accepted overlay has no say at a platform-owned path but to erase the chart's default below a subchart |
| Reserved.ReservedValueOverrides | internal/application/deployment/resources.go:58-84 | the report follows the sorted keys and is empty exactly when nothing reserved is touched |
| Reserved.ReportIsStable | internal/application/deployment/resources.go:65-72 | two calls on one overlay report the same whatever the iteration order |
| Reserved.ValuesHavePath | internal/application/deployment/resources.go:89-106 | true exactly when a lookup finds something at the path |
| PlatformLayer.OneDatabaseOneName | internal/application/deployment/execute.go:441-526 | for every chart and overlay the composed `sqldatabase.databases.sql` has one item, whose name is the trimmed application id, with the stored size, version, storage and database name; the same name stands at the bind's instanceName; enabled, engine, team and environment are the platform's |
| PlatformLayer.EntryDescribes | internal/application/deployment/execute.go:458-466 | what the list entry of a database holds, path by path |
| PlatformLayer.OneDatabaseIff | internal/application/deployment/execute.go:477-503 | that holds for every chart and overlay exactly when the application's values key is not `sqldatabase` |
| PlatformLayer.LayerOfOne | internal/application/deployment/execute.go:441-505 | the layer of a valid deployment with resources is the block of its one database and its bind |
| PlatformLayer.LayerLeavesRest | internal/application/deployment/execute.go:477-503 | the layer changes nothing outside its two blocks |
| PlatformLayer.ComputePlatformValues | internal/application/deployment/execute.go:441-505 | the loop refines the layer; no resources give the empty layer and an unknown values key is refused |
| PlatformLayer.BindValues | internal/application/deployment/execute.go:511-526 | the bind of the first postgres, or none |
| Persistence.RoundTrip | internal/adapter/outbound/persistence/deployment.go:176-304 | every deployment built by the constructors is reloaded exactly as it was written, resources re-derived |
| Persistence.ReloadsStorable | internal/adapter/outbound/persistence/deployment.go:235-304 | whatever reloads can be written and reloaded again |
| Persistence.UpsertOverwritesIff | internal/adapter/outbound/persistence/deployment.go:27-67 | the field-wise upsert overwrites exactly when no field omitted when empty goes from set to empty |
| Persistence.SaveThenFind | internal/adapter/outbound/persistence/deployment.go:116-143 | FindByID after such a save returns the aggregate just saved, and every other id what it returned before |
| Resources.RederivesItself | internal/domain/deployment/resource.go:83-156 | an accepted request yields a resource that its own type, size, version and storage rebuild, named by an RFC 1123 label of at most 50 characters, within the supported range |
| Resources.AcceptedIff | internal/domain/deployment/resource.go:83-136 | exactly the requests that are accepted, and that the resource gets what was asked for, or small, 16 and 32768 where nothing was |
| Resources.RebuildsAll | internal/adapter/outbound/persistence/deployment.go:326-339 | the resources of a deployment are rebuilt unchanged from their stored form |
| Resources.BuiltAllFor | internal/application/deployment/resources.go:117-130 | one resource for each request, in order, each built for the application |
| Resources.BuildResources | internal/application/deployment/resources.go:117-130 | the loop builds all of them, or fails on the first that cannot be built |
| Resources.BuildAllFails | internal/application/deployment/resources.go:122-126 | a request that cannot be built fails the whole list with its own error |
| Resources.ValidateResourceSet | internal/domain/deployment/resource.go:172-188 | accepts exactly the sets without an empty resource and without a type twice |
| Resources.AtMostOneDatabase | internal/domain/deployment/resource.go:158-188 | a satisfiable set of built resources holds at most one database |
| ResourcePolicy.Evaluate | internal/adapter/outbound/policy/resource.go:117-168 | a configured policy reports exactly the violations there are, of every resource and of the instance ceiling; none exactly when every type, size and version is among the trimmed entries of the environment's rules, and storage and ceiling hold; rejection exactly when enforcing and not allowed |
| ResourcePolicy.Contains | internal/adapter/outbound/policy/resource.go:200-210 | exact membership among the trimmed entries |
| ResourcePolicy.CheckPostgres | internal/adapter/outbound/policy/resource.go:174-198 | reports exactly the limits that are set and exceeded, and absent limits as such |
| ResourcePolicy.JudgeOne | internal/adapter/outbound/policy/resource.go:138-154 | reports exactly the violations of one resource; those of limits only for an allowed type |
| ResourcePolicy.AllowedIffNoViolation | internal/adapter/outbound/policy/resource.go:138-198 | the rules allow a resource exactly when it violates them in no respect |
| ResourcePolicy.UnlistedIsRefused | internal/adapter/outbound/policy/resource.go:157-165 | when postgres is not an allowed type a request for it is refused already, so the ceiling need not be looked at |
| ResourcePolicy.EmptyRulesDeny | internal/adapter/outbound/policy/resource.go:105-112 | an environment listed with empty rules denies every resource, whatever the default rules allow |
| Admission.Handle | internal/application/deployment/create.go:93-181 | the gates in order; a refused request leaves the store untouched, an accepted one is saved once, as its last step |
| Admission.AdmittedIsSound | internal/application/deployment/create.go:93-170 | an admitted deployment is fresh and valid and is the command's field by field, its resources authorized, its overlay within the allowlist and off every platform-owned path |
| Admission.AdmittedIff | internal/application/deployment/create.go:93-170 | for every command and gates: admitted exactly when the branch policy allows it, its required fields are filled in, its overlay can set no platform-owned path and passes the allowlist, and it declares no resource or one that can be built and is authorized |
| Admission.BuildsSatisfiableIff | internal/domain/deployment/resource.go:158-188 | the requests that build and are satisfiable together are none, or one that builds |
| Admission.AuthorizeResources | internal/application/deployment/resources.go:143-171 | a missing policy refuses any declared resource; otherwise the policy decides |
| Admission.CheckAllowlist | internal/application/deployment/create.go:117-121 | refuses exactly when the allowlist enforces and some leaf is not covered |
| Admission.PartsAreValid | internal/application/deployment/create.go:142-164 | the value objects are ones their constructors accept again |
| Aggregate.New | internal/domain/deployment/entity.go:71-111 | refuses exactly an empty application, an empty team or an unsatisfiable set; otherwise RECEIVED under the derived id |
| Aggregate.Deployment.Reconstitute | internal/domain/deployment/entity.go:114-153 | rebuilds the given state without validation |
| Aggregate.Deployment.TransitionTo | internal/domain/deployment/entity.go:196-203 | moves and stamps exactly when the edge is allowed, and otherwise changes nothing |
| Aggregate.Deployment.SetMetadata | internal/domain/deployment/entity.go:206-210 | records the metadata and derives the id anew |
| Aggregate.Deployment.SetArtifact | internal/domain/deployment/entity.go:213-216 | records the artifact and nothing else but the time |
| Aggregate.Deployment.SetArgoApp | internal/domain/deployment/entity.go:219-222 | records the application and nothing else but the time |
| Aggregate.Deployment.SetHealth | internal/domain/deployment/entity.go:225-228 | records the health and nothing else but the time |
| Aggregate.Deployment.Fail | internal/domain/deployment/entity.go:234-242 | the message is recorded even when the transition is refused; completion is stamped only when it is not |
| Aggregate.Deployment.Complete | internal/domain/deployment/entity.go:244-250 | completes and stamps exactly when the edge is allowed |
| Aggregate.Deployment.Reject | internal/domain/deployment/entity.go:253-260 | records the reason only when the edge is allowed |
| Lifecycle.ParseInvertsName | internal/domain/deployment/status.go:53-122 | a status parses back from its name, and only the names parse |
| Lifecycle.EdgesAre | internal/domain/deployment/status.go:31-43 | the relation is the pipeline in order, FAILED from every begun and not ended status, REJECTED from VALIDATING, DEGRADED from SYNCING, and ROLLED_BACK from the three statuses with an application that is not healthy |
| Lifecycle.EdgeSpends | internal/domain/deployment/status.go:31-43 | every edge climbs the status number and shortens the longest path left |
| Lifecycle.WalksAreShort | internal/domain/deployment/status.go:31-43 | every walk along the relation climbs strictly, has at most nine edges and joins statuses of the closure |
| Lifecycle.TerminalIffStuck | internal/domain/deployment/status.go:45-51 | the terminal statuses are exactly those nothing leaves |
| Lifecycle.ReachesTransitive | internal/domain/deployment/status.go:31-43 | the closure is transitive |
| Publisher.ReassemblesPushed | internal/application/deployment/execute.go:366-386 | registry, derived chart path and tag put together again are exactly the reference pushed, for every prefix, application, chart and version |
| Publisher.RefParts | internal/adapter/outbound/oci/publisher.go:86-92 | the reference is scheme, host, path and tag |
| Publisher.PublishedIsNamed | internal/adapter/outbound/oci/publisher.go:74-92 | the artifact returned names the chart by host, prefix, application, chart and version, in full and in parts, with the digest of the push |
| ValueObjects.SameIDIff | internal/domain/deployment/valueobject.go:13-26 | two deployments of an application share an id exactly when day, commit and the first four characters of the environment agree |
| ValueObjects.SameIDApplication | internal/domain/deployment/valueobject.go:13-26 | deployments of two applications in one environment never share an id |
| ValueObjects.SameVersionIff | internal/domain/deployment/valueobject.go:46-50 | two versions are equal exactly when chart version, start and commit are |
| ValueObjects.SameAppNameIff | internal/domain/deployment/valueobject.go:57-60 | the Argo CD names of an application differ when its namespace or its environment does |
| ValueObjects.SameComponentIff | internal/domain/deployment/valueobject.go:36-39 | components of one application and environment are told by cluster and commit |
| Versions.SelectVersion | internal/adapter/outbound/oci/resolver.go:229-265 | an eligible listed tag with no eligible tag of higher precedence; an error exactly when the constraint is malformed or no tag is eligible |
| Versions.SelectionIsStable | internal/adapter/outbound/oci/resolver.go:261-264 | permuting or repeating the tags never changes the version selected |
| Versions.PrecedenceOrder | internal/adapter/outbound/oci/resolver.go:261-263 | precedence by section 11 of Semantic Versioning 2.0.0, stated by its rules, is a strict total order of versions, hence a total preorder of tags |
| Versions.LowerIffPrecedes | internal/adapter/outbound/oci/resolver.go:261-263 | the recursive comparison the sort uses is that precedence: major, minor and patch as numbers, then the first prerelease identifier that differs |
| Versions.HighestByNumbers | internal/adapter/outbound/oci/resolver.go:225-265 | no eligible tag has a larger major than the one selected, none of its major a larger minor, none of both a larger patch, and a release is chosen over its prereleases |
| Versions.SortCandidates | internal/adapter/outbound/oci/resolver.go:261-263 | a permutation in descending precedence |
| Text.OneArrangement | internal/application/deployment/resources.go:65-72 | a list has one sorted arrangement |
| Text.TrimsSpaceOnly | internal/domain/deployment/resource.go:89-96 | trimming takes nothing but space off the ends |

## Left out

- Text: strings are sequences of characters, so byte lengths and prefixes are exact for ASCII only, and TrimSpace knows ASCII white space.
- Error texts are short tags in place of the source's sentences; policy violations are a datatype in place of text.
- Timestamps carry their renderings; the store's truncation to milliseconds is not modelled, a zero completion time is None, and a nil map or slice is the empty one.
- Time moves only at calls: everything computed between two calls is stamped with one time.
- One process and one create for a deployment id: replicas, and a second create that derives the same id, are not coordinated by the code either.
- A save that reports an error has been applied at once or never; a write that surfaces later is not modelled.
- Executor.DeployExecutionHandler.Execute: runs alone on its world; other goroutines, and the in-flight map shared with them, are the subject of System, whose drives take one call at a time in any order.
- Loading and packaging the archive, YAML, Chart.yaml annotations and the temporary directory: every other failure of Compose is the answer's ok flag.
- An archive that is neither missing nor loadable is a chart whose compose call fails.
- The branch policy is an arbitrary answer, and reading policy files is left out.
- Versions.SelectVersion: parsing of tags and of constraints is an arbitrary function, because the library that does it is not part of this repository.
- Composer.DeepCopyValue: a list of another Go type than `[]any`, as the Mongo driver may decode the lists of a reloaded overlay, has no node here; the copy would share it with its source.
- copyValues copies the maps of an overlay but shares its lists; the aggregate holds its overlay by value here, and Composer alone models sharing.
- The two token caches, login, and the registry, Argo CD and Mongo clients: each call succeeds or fails arbitrarily.
- FindByApplication, HTTP handlers, authentication, JSON and logging: they would add only easy members.
- The GitHub tag resolver repeats the selection with a stubbed constraint and is not wired in.
