# A verified model of the test operator's reconcile loop

The test operator runs OpenStack tests (Tempest, Tobiko, AnsibleTest, HorizonTest) as pods. Many custom
resources of one namespace each work through a list of pods, one step at a time. No reconcile keeps
local state: each one recomputes what to do from the pods it lists. Custom resources take turns through
one lock object, and a changed spec makes a custom resource tear its pods down and start again.

The project models four parts of the operator and proves what each is for:

1. **The reconcile protocol.** `Decision.dfy` is the decision taken from the listed pods. `Protocol.dfy` is
   a state machine in which every call of a reconcile to the cluster is one event. Between two calls of one
   custom resource, other custom resources, users, the kubelet and the garbage collector may act. Two runs
   of the state machine differ in nothing but the order of such events and the answers of the cluster.
   `ProtocolSafety.dfy` proves what every reachable state keeps, `IndexSafety.dfy` when the step index stays
   inside the workflow, `RunOrder.dfy` the order, the end and the conditions of an undisturbed run,
   `BeyondTheEnd.dfy` that a run with a pod beyond its workflow has no end, and `NameCollisions.dfy` when one
   custom resource can reach the pods of another. `SampleRuns.dfy` puts possible runs together piece by piece
   and shows that every testing can be completed; `StaleRuns.dfy` does so for the runs in which an index goes
   astray. `StatusTable.dfy` says condition by condition what each call leaves in the status. `History.dfy` is
   the vocabulary for stretches of a run.
   `Reconciler.dfy` is `CommonReconcile` with its helpers as imperative code: a class that updates the
   namespace in place. It carries the history of all events as a ghost sequence, and its validity
   predicate says that the namespace is exactly where the protocol leads after that history. So every
   statement about runs of the protocol holds of the code, whatever acts in between.
2. **`MergeSections`.** `MergeSchemas.dfy` lists the real spec and step types as data, `Merge.dfy` is the
   reflective merge on typed dynamic values with its in-place loop, `MergeProperties.dfy` says value by
   value what it does to the three kinds, `MergeAlgebra.dfy` how merges of several steps compose.
3. **The encoders.** `EnvColumns.dfy` is the comma-terminated column format, `TempestEnv.dfy` the setters of
   environment variables and files, `TempestEnvProperties.dfy` and `TempestReadBack.dfy` prove that the pod
   can read the whole spec back, and `TempestTexts.dfy` gives the texts themselves. `PodNames.dfy` (with
   `Decimal.dfy`) is the pod-name printer and the webhook's length check. `AnsibleVolumes.dfy` is the volume
   code of AnsibleTest pods, and `AnsibleVolumeNames.dfy` says when its names are distinct.
4. **The generated deep copies** (`DeepCopy.dfy`), on the heap.

`Types.dfy` and `Conditions.dfy` hold the objects and the status conditions. `dafny verify dfyconfig.toml`
checks everything.

## Findings

- **The step index is not always in range.** `NextAction` and `CheckConfigChange` list the pods separately
  (internal/controller/common.go:186-238 and 997-1046). If a workflow is shortened, and the old pods vanish
  after the first listing and before the second, the config check sees no foreign hash and lets a
  `CreateNextPod` decision through whose index lies beyond the new workflow. An AnsibleTest then indexes
  `Spec.Workflow` out of range (internal/ansibletest/volumes.go:46 and 92): `StaleRuns.StaleDecisionPanics` is
  such a run, from an empty namespace to the panic. A Tempest or a Tobiko creates a pod for a step that does
  not exist; `StaleRuns.StaleDecisionRunsOn` is such a run of each, from an empty namespace to a state from
  which, since the last-index test is an equality, the testing never ends (`BeyondTheEnd.TestingNeverEnds`).
  `IndexSafety.IndexSafeExactly` and `IndexSafety.IndexSafeUnlessPodsVanish` are the exact condition, the
  second one in terms of the events and pods that can be observed.
- **Two custom resources can have pods of the same name.** The pod of step 0 ("x") of "a" and the plain pod
  of "a-s00-x" are both called "a-s00-x". Pods are looked up and deleted by name. So "a" can take the other's
  pod for its own (`NameCollisions.CollisionAdoptsForeignPod`) and delete it once its own is gone
  (`NameCollisions.CollisionTakesForeignPod`), in runs from an empty namespace.
  `NameCollisions.CallTouchesExactly` is the exact condition for one call. For names it is this: some run has
  one custom resource touch a pod of another exactly when one name continues the other with `-s` and a step
  number as `%02d` prints it, and ends there or goes on with a dash (`NameCollisions.NamesCollideExactly`).
  "a" and "a-sfoo" are apart, "a" and "a-s00" are not. The safety theorems hold in either case.
- **Columns align exactly when no item contains a comma** (`TempestReadBack.PluginColumnsAlign`,
  `ImageColumnsAlign`). The CRD accepts a comma in a URL; `CommaMisaligns` is a concrete plugin.
- **An AnsibleTest workflow step always decides `debug`.** Its `Debug` is a plain bool, so a step that leaves
  it out turns the spec's `debug: true` off (`MergeProperties.DebugIsAlwaysOverridden`).
- **A step's config-map mounts appear twice** in an AnsibleTest pod, under the same volume names, since the
  merge has already made the step's list the spec's (`AnsibleVolumeNames.StepVolumesTwice`). The names are
  distinct exactly when the step mounts no config maps and the names the user gives are distinct and none of
  the operator's own (`AnsibleVolumeNames.MergedNamesDistinctExactly`).
- **The webhook's length check covers step indices up to 999** and no further
  (`PodNames.CheckCoversThreeDigits`).
- The comment of `Int64OrPlaceholder` promises the placeholder for 0; the code gives it for every
  non-positive number. The model follows the code.

## Assumptions

- Reconciles of one custom resource are serial; those of different ones interleave.
- Names of custom resources are unique across kinds in a namespace, since pods are selected by the
  `instanceName` label only. UIDs are unique and not empty.
- `Succeeded` and `Failed` are terminal phases. A pod is live when it has no deletion timestamp.
- The spec hash is injective and never empty: a hash is a constructor applied to the spec.
- Reads are current, and a call that fails changes nothing. Creating a pod under a taken name fails.
- Only the operator touches the lock. `EnsureConfigMaps`, whose code is not part of this model, creates the
  lock if it is absent and fails otherwise; the get-then-create of `AcquireLock` is two events.
- A release that deletes the lock names it by name, as the client's `Delete` does.
- The conditions written by the deferred patch are stored; the merged spec is not.
- A reconcile's own record is updated at the event that ends its wait, so conditions set on the way and
  lost by a panic are not visible to others.

## Model

| member | source | states |
|---|---|---|
| Decision.LastPodIsHighest | internal/controller/common.go:253-288 | the running maximum over any listing is a live pod of highest step, none when there is no live pod with a non-negative step, and an error exactly when a live pod's label does not parse |
| Decision.NextActionIsRight | internal/controller/common.go:186-238 | the whole decision for any listing: Failure for an unreadable live label, CreateFirstPod without a live pod of a non-negative step, and otherwise by the phase of the last listed pod of highest step: pending gives CheckPending, running or unknown Wait, and a pod that succeeded or failed alike gives EndTesting at the step max(1, n)-1 and a pod for the step after it at any other |
| Decision.DecisionIgnoresOrder | internal/controller/common.go:186-238 | with distinct live steps the decision depends neither on the order of the listing nor on the terminating pods in it |
| Decision.NextIndexInRange | internal/controller/common.go:206-249 | the index of a CreateNextPod decision is at least 1, and below max(1, n) if and only if every listed live pod's step is |
| Decision.BeyondTheEndNeverEnds | internal/controller/common.go:242-249 | a listing with a live pod beyond the workflow's end is never decided as the end, and a next index taken from it lies further out |
| BeyondTheEnd.TestingNeverEnds | internal/controller/common.go:206-249 | and over runs: from a reachable namespace in which an idle custom resource has such a pod and only pods of its present hash, no run that leaves its spec and pods to it reaches a final release or DeploymentReady, and no listing ever decides EndTesting |
| Reconciler.GetLastPod | internal/controller/common.go:253-288 | the loop computes the fold and meets its promise: highest live step, none, or the label error; of several pods of the highest step it is the last one listed |
| Reconciler.ChooseAction | internal/controller/common.go:186-238 | the branching code takes that decision; the index is never negative |
| Reconciler.FindHash | internal/controller/common.go:1017-1027 | the loop returns the annotation of the first listed live pod that has one, and none if no live pod has one |
| ProtocolSafety.StepKeepsInv | internal/controller/common_controller.go:84-394 | every call of every reconcile and every act of the environment keeps the invariant of the namespace |
| ProtocolSafety.CallLeavesOthersAlone | internal/controller/common.go:253-288 | a call of one custom resource gives another no live pod and revives or un-finishes none, keeps the other's stage and UID, and never takes its lock; that it may delete a pod of the other is the subject of NameCollisions |
| NameCollisions.CallTouchesExactly | internal/controller/common.go:1040-1042 | a call touches a pod of another custom resource if and only if it deletes under a name that is, at that moment, the name of a pod of the other; the other's record, stage and lock ownership never change |
| NameCollisions.CollisionTakesForeignPod | internal/controller/common.go:1033-1043 | a run from an empty namespace in which "a" deletes the live pod of "a-s00-x" |
| NameCollisions.SeparateNamesKeepApart | internal/controller/common.go:328-352 | when neither name continues the other with a step number, no run ever has one custom resource touch a pod of the other |
| NameCollisions.NamesCollideExactly | internal/controller/common.go:1040-1042 | and otherwise some run has it: one custom resource can touch a pod of another, in either direction, if and only if one name is the other, `-s`, a step number of at least two digits without a needless zero, and then nothing or a dash and more |
| NameCollisions.SeparateNamesFindOwnPod | internal/controller/common.go:165-169 | where all names are apart in this sense, a pod found under the name of the pod to be created is the custom resource's own |
| NameCollisions.CollisionAdoptsForeignPod | internal/controller/common.go:165-169 | a run from an empty namespace in which "a" finds the pod of "a-s00-x" and goes on as after a creation, with no pod of its own |
| PodNames.SharedNames | internal/controller/common.go:328-352 | some workflows and step numbers give two custom resources one pod name if and only if the names are equal or one continues the other with a step number, as said above |
| ProtocolSafety.DecideEstablishes | internal/controller/common.go:186-238 | a decision taken from a complete listing knows the one hash of all live pods, creates only above finished pods and ends only when all are finished |
| ProtocolSafety.CheckEstablishes | internal/controller/common.go:1017-1031 | a config check that passes has every live pod carry the hash of the spec in hand |
| ProtocolSafety.CheckDooms | internal/controller/common.go:1033-1043 | one that finds a foreign hash dooms exactly the live pods of the custom resource, each once, and changes nothing else yet |
| ProtocolSafety.CheckGoesOn | internal/controller/common_controller.go:182-258 | a passing check takes a decision to create to the pod of that step, with its name and hash, past the lock exactly when it runs in parallel (an AnsibleTest never, a Tempest step by its own setting first); it starts the release at the end; otherwise the reconcile ends |
| ProtocolSafety.MutualExclusion | internal/controller/common_controller.go:195-258 | in every interleaved run there is at most one live unfinished pod created with an effective `parallel` of false |
| ProtocolSafety.LockIsKept | internal/controller/common.go:537-611 | such a pod's custom resource owns the lock; an owned lock goes away only in the owner's own delete, at a moment when all its live pods are finished |
| ProtocolSafety.OneConfiguration | internal/controller/common.go:997-1046 | in every reachable state all live pods of a custom resource carry one config hash |
| ProtocolSafety.CreatesForOneConfiguration | internal/controller/common_controller.go:188-199 | after any creation all live pods of the custom resource carry the hash of the spec the new pod was built from |
| ProtocolSafety.RunnerIsHighest | internal/controller/common.go:199-234 | an unfinished live pod is the only one of its custom resource and has the strictly highest live step |
| IndexSafety.IndexSafeExactly | internal/controller/common_controller.go:182-199 | a run keeps every index that reaches pod building inside 0 .. max(1, n)-1 if and only if no config check in it lets through a CreateNextPod decision taken from a pod of another spec whose step lies beyond the workflow in hand |
| IndexSafety.VolumeIndexIsSafe | internal/ansibletest/volumes.go:45-46 | without such an overrun the unguarded workflow index never panics |
| IndexSafety.DecidedFromLivePod | internal/controller/common.go:206-224 | a CreateNextPod decision is taken from a live, finished pod one step below, carrying the hash the decision remembers |
| IndexSafety.StaleMeansPodsVanished | internal/controller/common.go:997-1046 | a stale decision passes the check only when no live pod of the custom resource is left |
| IndexSafety.IndexSafeUnlessPodsVanish | internal/controller/common_controller.go:182-192 | the same in terms of events: a run keeps every index in range if and only if never does a custom resource decide while all its live pods have finished and one of another spec stands beyond the workflow in hand, and then make its config check, as its next call, with no live pod left |
| IndexSafety.SafeWhilePodsStay | internal/controller/common_controller.go:182-192 | so a run in which nobody takes the last live pod of a custom resource between its two listings keeps every index in range |
| StaleRuns.StaleDecisionPanics | internal/ansibletest/volumes.go:91-92 | a concrete run from an empty namespace that ends in the index panic |
| StaleRuns.StaleDecisionRunsOn | internal/controller/common.go:242-249 | for Tempest and for Tobiko a concrete run from an empty namespace that ends with an idle custom resource whose only pod stands beyond its workflow: all that TestingNeverEnds asks for |
| RunOrder.CreatedInOrder | internal/controller/common.go:160-249 | from the moment it is added to any namespace that has come about, with nobody else touching its spec or pods: the created pods are those of steps 0, 1, ... each once, at most max(1, n); earlier ones are finished, and the next one is created only when all are |
| RunOrder.ReadyTellsTheTruth | internal/controller/common_controller.go:221-236 | then DeploymentReady true means all max(1, n) pods were created and finished, and that at some event of the run the release at the end of the testing read the lock and found it absent with all of them created and finished; Ready true means every sub-condition is true as well |
| RunOrder.RemainingCounts | internal/controller/common.go:206-224 | pods to create plus pods to finish is never negative, and zero exactly when the run is done |
| RunOrder.RemainingFalls | internal/controller/common.go:206-224 | no event of an undisturbed run raises that measure; each creation and each completion lowers it |
| RunOrder.DecisionFollowsRun | internal/controller/common.go:199-249 | in an undisturbed run every listing is decided as its progress calls for: a wait while a pod is unfinished, the creation at step number-created once all are finished and some are missing, the end once none is missing |
| RunOrder.DoneDecidesEnd | internal/controller/common.go:242-249 | at zero `NextAction` answers EndTesting with the last index, for every listing order |
| RunOrder.DoneStaysDone | internal/controller/common.go:206-249 | and keeps answering it through any further undisturbed run |
| Reconciler.Cluster.NeverTwoExclusive | internal/controller/common_controller.go:195-258 | mutual exclusion for the code: in any valid state of the class two exclusive pods are the same pod |
| Reconciler.Cluster.Interfere | internal/controller/common.go:550-566 | any number of events of others: they leave the own stage, conditions and lock ownership alone and bring no new live pod of the instance |
| Reconciler.Cluster.AcquireLock | internal/controller/common.go:537-574 | true only for a parallel pod or with the lock in the instance's name; false only when the reading failed or showed another owner, or the creation of the lock failed or found it present; every path is a path of the protocol |
| Reconciler.Cluster.ReleaseLock | internal/controller/common.go:577-611 | true exactly on reading an absent lock, first or in a poll after a try to delete; false only when the reading failed, showed a lock without this owner, the lock was absent at the delete, or ten polls after the try to delete did not find it absent; every event of the caller in the call that changes the lock finds it held by the caller; after a successful delete the caller is not the owner, whatever is returned |
| SampleRuns.ReleasesLock | internal/controller/common.go:577-611 | from any state in which a release is due and the lock free or the instance's own, the answered calls read, delete and poll are possible and end with the lock gone and the report of the place that asked |
| SampleRuns.FailedCreationReleases | internal/controller/common_controller.go:346-362 | a failed look for the pod, a failed creation and a taken name all lead on to the release, and with answers to a free lock and DeploymentReady false |
| SampleRuns.DoneRunEnds | internal/controller/common_controller.go:221-236 | an undisturbed run with all pods done ends from wherever it rests: for every listing its next reconcile leads, with answers, to a free lock and DeploymentReady true |
| SampleRuns.RunCompletes | internal/controller/common_controller.go:84-394 | for every kind, every spec and every choice of which pods fail there is a run from an empty namespace that creates the pods of all max(1, n) steps in order and ends with the lock free and DeploymentReady and Ready true |
| Reconciler.Cluster.DeletePods | internal/controller/common.go:1033-1043 | with others acting between two deletes, no listed pod is live afterwards unless a delete failed, which then was the last call; no pod of the instance appears meanwhile |
| Reconciler.Cluster.CheckConfigChange | internal/controller/common.go:997-1046 | after a detected change no live pod of the instance is left unless a delete failed; when it passes, every live pod carries the new hash at that moment and the decision is handed on unchanged |
| Reconciler.Cluster.CreatePod | internal/controller/common.go:160-182 | answers created only with a pod of that name in the namespace, and has made either nothing or exactly the pod of the step decided on: at one event of the call it is added under its free name, with its hash and `parallel`, while the lock is held unless it is parallel; answers not created only when a call failed or the name had been taken |
| Reconciler.Cluster.PreparePod | internal/controller/common_controller.go:270-345 | each failure before the pod is built leaves with the conditions of that failure, spelled out one by one in the row of FailureShows, success carries those of BuiltShows, and the ownership of the lock is the same before and after |
| StatusTable.FailureShows | internal/controller/common_controller.go:270-345 | InputReady is false after invalid inputs and true after any later failure; ServiceConfigReady false where the config maps fail and true from then on, for the kinds that have any; NetworkAttachmentsReady false where one is missing and true after it; the others stay, and an undecided Ready becomes the summary |
| StatusTable.BuiltShows | internal/controller/common_controller.go:270-345 | a built pod has all of these true and leaves the rest alone |
| StatusTable.VerifiedShows | internal/controller/common_controller.go:369-393 | NetworkAttachmentsReady is true or false as the networks of the pod are found ready or not, nothing else changes but Ready, which is true once all others are |
| StatusTable.ReleasedShows | internal/controller/common_controller.go:221-236 | a release at the end makes DeploymentReady true, and Ready when all others are; one after a failed creation makes it false; a release that fails changes nothing |
| StatusTable.FetchShows | internal/controller/common_controller.go:106-163 | the first reconcile sets up exactly the conditions of the kind, all undecided; the next one of a Tempest adds the finalizer; after that the spec is read |
| StatusTable.PrepareShows | internal/controller/common_controller.go:260-345 | the building of the pod leaves the table of FailureShows, or of BuiltShows and goes on, and nothing else of the record changes; an AnsibleTest whose step lies outside its workflow panics and reports nothing |
| StatusTable.VerifyShows | internal/controller/common_controller.go:369-393 | the look at the networks ends the reconcile with that table and nothing else in the record |
| StatusTable.ReleaseShows | internal/controller/common.go:577-611 | a release ends as soon as the lock is read as absent; where it ends it leaves its table, and until then nothing |
| StatusTable.OtherCallsShow | internal/controller/common_controller.go:127-142 | every other call leaves the conditions alone, but for the summary where it ends the reconcile |
| Reconciler.Cluster.Perform | internal/controller/common_controller.go:195-262 | the end of the testing goes to the release; a creation goes for the lock, or straight to building when the pod is parallel; any other decision makes no call; either nothing is created or exactly the pod of the decided step, with the hash of the unmerged spec and the effective `parallel` of the merged one, and under the lock at the moment of its creation unless it is parallel |
| Reconciler.Cluster.CommonReconcile | internal/controller/common_controller.go:84-394 | one call is one pass of the protocol from the reading of the instance to the end, exactly one, with no other steps and with others free to act before each of its calls; it creates at most one pod, at an event where it is added under a free name as the pod of some step with its effective `parallel`, under the lock unless parallel |
| Conditions.ExitKeepsReadyHonest | internal/controller/common_controller.go:127-142 | the deferred mirroring never makes Ready true unless every other condition is, and touches no other condition |
| PodNames.PodNamesAreInjective | internal/controller/common.go:328-352 | with a workflow, different step indices give different pod names, for any step names |
| PodNames.PodNameReads | internal/controller/common.go:328-352 | the name itself: that of the custom resource without a workflow, otherwise followed by `-s`, the number in at least two digits, a dash and the step, or `no-name` |
| PodNames.ValidateNames | api/v1beta1/tempest_webhook.go:64-78 | the name checks of a creation pass exactly when the plain name and every step's two-digit name have fewer than 63 characters, and then every pod of steps 0 to 999 has a name of at most 63 |
| PodNames.ValidateWorkflowPodNames | api/v1beta1/common_webhook.go:117-132 | appends exactly one error for each step whose two-digit name has 63 characters or more, in order, with that length |
| PodNames.NoErrorsMeansShort | api/v1beta1/common_webhook.go:117-132 | the workflow is accepted exactly when every step's two-digit name has fewer than 63 characters |
| PodNames.AcceptedNamesFit | internal/controller/common.go:328-352 | an accepted name with named steps gives pod names of at most 63 characters for indices below 1000 |
| PodNames.CheckCoversThreeDigits | api/v1beta1/common_webhook.go:117-132 | the check covers an index if and only if it has at most three digits |
| Decimal.ParseUndoesPad2 | internal/controller/common.go:351 | the zero-padded number consists of digits and reads back as itself |
| Decimal.Pad2UndoesParse | internal/controller/common.go:351 | and a text of at least two digits that starts with a zero only when it has just two is the zero-padded form of the number it reads as |
| MergeProperties.SchemasMatch | internal/controller/common.go:950-977 | for all three kinds the merge may run: sections pair with sections, no assignment crosses types, and no step field is one promoted from an embedded struct |
| Merge.MergeSections | internal/controller/common.go:950-977 | the in-place loop, in any field order, ends, assigns within types only and leaves the specified merge |
| Merge.LookupIsDirect | internal/controller/common.go:956-964 | the reflective lookup finds the step's own field or nothing |
| MergeProperties.MergeCorrect | internal/controller/common.go:936-977 | every value of the merged spec is the step's where it is set (non-empty string or map, non-nil pointer or slice, any bare bool or number) and the base's otherwise, in fields and in section fields |
| MergeProperties.RunSectionsMerge | internal/controller/common.go:960-968 | every field of a Tempest's tempestRun and tempestconfRun is overridden by the same field of the step's section of the same name |
| MergeProperties.CommonOptionsMerge | internal/controller/common.go:960-968 | for all three kinds every field of the common options is overridden by the same field of the step's own common options, which lack only the extra mounts |
| MergeProperties.TopFieldsMerge | internal/controller/common.go:970-975 | every other field is overridden by the step's, and a step can set all of them but `Workflow`, and `Debug` and `Cleanup` of a Tempest, `Debug` and `Parallel` of a Tobiko |
| MergeProperties.HowStepsSet | internal/controller/common.go:936-948 | which of these a step can also empty, since it sets them through a pointer; an AnsibleTest's `debug` is the only one it cannot leave alone |
| MergeProperties.TopLeaves | api/v1beta1/tobiko_types.go:192 | which fields are overridden whole: all but the four sections, `Resources` and `Patch` included |
| MergeProperties.SectionLeaves | internal/controller/common.go:960-968 | which section fields are overridden one by one: all of CommonOptions, TempestRun and TempestconfRun |
| MergeProperties.MergeSpares | internal/controller/common.go:959-969 | `Workflow`, `CommonOpenstackConfig` and `ExtraMounts` come through every merge unchanged |
| MergeProperties.DebugIsAlwaysOverridden | api/v1beta1/ansibletest_types.go:180 | the merged `debug` of an AnsibleTest is the step's, set or not |
| MergeProperties.MergedParallel | internal/controller/common_controller.go:195-204 | the `parallel` read after the merge is the effective one that the lock protocol is proved for |
| MergeAlgebra.MergeComposes | internal/controller/common.go:950-977 | merging s and then t is merging the one step that lays t over s |
| MergeAlgebra.MergeIsIdempotent | internal/controller/common.go:950-977 | merging a step twice is merging it once |
| MergeProperties.EffectiveSpecIgnoresOtherSteps | internal/controller/common_controller.go:195-199 | for all three kinds, with the step taken from the spec's own workflow: two specs that differ in the other steps only give step i the same effective spec, but for the workflow itself |
| EnvColumns.EntriesExact | internal/controller/common.go:882-886 | a column of comma-free texts reads back as the texts |
| EnvColumns.ColumnRoundTrip | internal/controller/common.go:882-886 | a fresh variable has one entry per row, and those of the rows, exactly when no text has a comma |
| TempestReadBack.PutFileReadsBack | internal/controller/common.go:867-879 | setting a file keeps every file variable on its own path, makes the file read back as its content, leaves it as it was for empty content, and changes how no other file reads |
| TempestEnv.ConfigData.SetDictEnvVar | internal/controller/common.go:882-886 | in any iteration order each field's text and a comma go to the end of its variable |
| TempestEnv.ConfigData.SetTempestConfigVars | internal/controller/tempest_controller.go:164-229 | the setter computes the specified maps from any start |
| TempestEnv.ConfigData.SetTempestconfConfigVars | internal/controller/tempest_controller.go:231-280 | the same for the tempestconf setter |
| TempestEnv.GenerateServiceConfigMaps | internal/controller/tempest_controller.go:287-347 | both setters, the overwrites and the service variables give the specified config maps |
| TempestEnvProperties.RunWritesThat | internal/controller/tempest_controller.go:164-229 | what the first setter leaves in each single variable, given what was there |
| TempestEnvProperties.ConfWritesThat | internal/controller/tempest_controller.go:231-280 | the same for the second |
| TempestEnvProperties.SettersCommute | internal/controller/tempest_controller.go:164-280 | the setters write different variables and files, so their order does not matter, whatever was there |
| TempestEnvProperties.FileVarsNameFiles | internal/controller/tempest_controller.go:310-321 | a file variable is set exactly for content, names a key in the custom data, and overwrites change what stands there but remove nothing |
| TempestReadBack.PluginColumnsAlign | internal/controller/tempest_controller.go:195-201 | the three plugin columns have one entry per plugin if and only if no plugin has a comma in its texts |
| TempestReadBack.ImageColumnsAlign | internal/controller/tempest_controller.go:205-222 | the same of the thirteen image columns; numbers never bring a comma |
| TempestReadBack.CommaMisaligns | internal/controller/tempest_controller.go:195-201 | a concrete plugin for which they do not align |
| TempestReadBack.NumberReads | internal/controller/common.go:837-842 | a positive number reads back, any other one reads as zero, and the text has no comma |
| TempestReadBack.RunRoundTrip | internal/controller/tempest_controller.go:164-229 | from variables and files the pod gets back all of `tempestRun`, up to the placeholders, when list items have no commas and no file is overwritten |
| TempestReadBack.ConfRoundTrip | internal/controller/tempest_controller.go:231-280 | and all of `tempestconfRun` |
| TempestReadBack.ServiceRoundTrip | internal/controller/tempest_controller.go:317-321 | and the remaining settings and the pod's own name as the step directory |
| TempestTexts.RunTexts | internal/controller/tempest_controller.go:177-193 | the flags of the run are the texts "true" and "false", USE_EXTERNAL_FILES is always "true", and the concurrency is there exactly when it is positive |
| TempestTexts.ConfTextsShown | internal/controller/tempest_controller.go:244-270 | the same of the tempestconf flags; a number that is not positive is an empty text |
| TempestTexts.FilePaths | internal/controller/common.go:867-879 | each file variable is the full path under /etc/test_operator/, or absent without content |
| TempestTexts.PluginEntries | internal/controller/tempest_controller.go:195-201 | the entries of a plugin are its own texts, a dash standing for an empty change URL or refspec |
| TempestTexts.ImageEntries | internal/controller/tempest_controller.go:205-222 | the thirteen entries of an image are its own texts and numbers, with nothing for a missing timeout and a dash for a missing number of its flavor |
| AnsibleVolumes.GetVolumes | internal/ansibletest/volumes.go:16-53 | with convertible extra volumes: panics exactly when a non-empty workflow is indexed out of range; otherwise every position of the list is given: the operator's volumes with their sources and modes, the user's in order, one for each config map of the spec and then of the step, named after it and reading from it |
| AnsibleVolumes.GetVolumeMounts | internal/ansibletest/volumes.go:56-99 | the same of the mounts: names, paths, sub paths and read-only flags of the operator's mounts, the user's in order, and each config map at the path and sub path the user gives |
| AnsibleVolumes.EveryMountHasItsVolume | internal/ansibletest/volumes.go:16-99 | every mount names a volume of the pod, provided each of the user's extra mounts does |
| AnsibleVolumeNames.StepVolumesTwice | internal/ansibletest/volumes.go:43-49 | each config map the step mounts has its volume at two positions |
| AnsibleVolumeNames.NamesDistinctExactly | internal/ansibletest/volumes.go:16-53 | the volume names are distinct if and only if the step mounts no config maps and the names the user gives are distinct and none of the operator's own |
| AnsibleVolumeNames.MergedNamesDistinctExactly | internal/controller/common_controller.go:195-199 | the same of any typed spec and step, where the merge itself is what makes the step's list the spec's |
| AnsibleVolumes.ReconcileStaysInRange | internal/ansibletest/volumes.go:45-46 | a reconcile that reaches pod building does not panic here unless its run overruns the workflow |
| DeepCopy.OptionsDeepCopyInto | api/v1beta1/zz_generated.deepcopy.go:152-185 | the copy shows the same value, nil and empty kept apart, every pointer, slice and map in it is new, and none is reached twice |
| DeepCopy.OptionsDeepCopy | api/v1beta1/zz_generated.deepcopy.go:187-195 | nil for nil, otherwise the same into a new struct |
| DeepCopy.OthersMayChange | api/v1beta1/zz_generated.deepcopy.go:152-185 | whatever changes outside the original's own references, the original shows the same value |
| DeepCopy.CopyMounts | api/v1beta1/zz_generated.deepcopy.go:164-170 | the same for a slice whose elements hold slices, no two of which are shared |
| DeepCopy.CopyTolerations | api/v1beta1/zz_generated.deepcopy.go:178-184 | the same for a slice whose elements hold pointers, no two of which are shared |
| DeepCopy.WorkflowDeepCopyInto | api/v1beta1/zz_generated.deepcopy.go:718-771 | the same for pointers to slices and maps, at both levels, with nothing shared inside the copy |
| DeepCopy.WorkflowKept | api/v1beta1/zz_generated.deepcopy.go:718-771 | the original shows the same value as long as none of its own references changes |
| DeepCopy.CopyAttachments | api/v1beta1/zz_generated.deepcopy.go:212-229 | a map of slices: equal, with nil and empty slices kept apart, every slice new and none under two keys |
| DeepCopy.StatusDeepCopyInto | api/v1beta1/zz_generated.deepcopy.go:198-230 | the whole status, with nothing shared inside the copy |
| DeepCopy.StatusKept | api/v1beta1/zz_generated.deepcopy.go:198-230 | the original shows the same value as long as none of its own references changes |

## Left out

- Deleting a custom resource, owner references and finalizer effects. The environment may remove pods at any
  time, which covers what garbage collection does to pods. It does not cover the lock: if the lock object is
  collected together with a deleted owner while a pod of that owner is still live, another custom resource
  may take the lock and run beside it. Mutual exclusion is proved for namespaces whose custom resources stay.
- An error of `Get` on the custom resource, which ends a reconcile before it does anything, and a failing
  status patch, which loses the conditions a reconcile has set.
- Eventual release of the lock and fairness: the code gives neither, since failures between the lock and
  the pod return without a release.
- Which volume claim is used, network attachment contents and their clocks: the step may fail or wait, no more.
- SHA-256 and JSON: the hash is taken to be injective. YAML of the OpenStack configuration is not modelled.
- The HorizonTest, Tobiko and Tempest volume builders, pod specs and security settings: straight assembly.
- Webhook warnings, defaulting, error details and the update path: `ValidateUpdate` does not look at names
  again, so the name bound is about accepted creations.
- Int64OrPlaceholder and StringOrPlaceholder alone: their use in columns is what is proved.
- Merge.MergeSections: a section is merged through a variable of its own and stored back, and the merged
  spec shares no pointers with the step, so aliasing between the two is not captured.
- Merge.MergeSections: elements of slices and entries of maps are opaque texts, since the merge never looks
  inside them.
- TempestReadBack.RunRoundTrip: how the test container's scripts parse the variables is not part of this
  model; the reading functions are a reference for the format.
- DeepCopy.CopyMounts: `VolMounts` elements, and conditions in `DeepCopy.StatusDeepCopyInto`, are copied by
  library code and are opaque values.
- DeepCopy.WorkflowDeepCopyInto: the struct is put together as a value and stored once, where the generated
  code stores it first and replaces its references one by one; the same holds for the other structs.
- AnsibleVolumes.GetVolumes: the volume sources of the user's extra mounts are taken to convert.
  internal/util/volumes.go:203 drops the error of `ToCoreVolumeSource` and dereferences the result, so a
  source that cannot be converted is another possible panic there.
- NameCollisions.NamesCollideExactly: names and step names may be texts of any length; the webhook's limit is
  not part of the runs.
- RunOrder.CreatedInOrder: quantifies over runs in which nobody edits the spec or deletes pods of the custom
  resource; everything else may happen in them.
- Reconciler.Cluster.CommonReconcile: that a reconcile ends is proved for any finite amount of interference
  between its calls. Which calls fail is chosen freely by the cluster and not an input of the methods.
