# Verified model of the coordinator's stateful cores

This project models, in Dafny 4.11, the parts of the Instacart pipeline repository in which a wrong step
deletes the wrong thing, repeats work, tears a file or breaks a ranking, and proves what those parts keep.
Docker, Kubernetes, `minikube` and the file system are nondeterministic environments: a command may fail or
raise, other actors may add things, and an attempt may stop after any step. Theorems about runs hold for
every choice the environment can make. Each environment counts its failures in a ghost field, so that the
models can also say what a call achieves: "without a failure" means that the count has not changed.

| component | modules |
|---|---|
| Ownership receipts and guarded teardown | `Ownership`, `ServingReceipt`, `PipelineReceipt`, `Inventory`, `Teardown`; what acceptance and passed guards mean, field by field: `ReceiptMeaning`, `DeletionScope`; that they can accept at all: `ServingExample`, `PipelineExample`, `TeardownPossible` |
| Scoped Docker cleanup | `DockerDaemon`, `DockerCleanup` |
| Resumable pipeline executor | `PipelineExecutor` |
| Rank comparison and the two oracles | `RankMetrics`, `Ranking`, `TrendOracle`, `HybridOracle` |
| Relational sampler | `SampleDataset` |
| Render roots | `RenderRoots` |
| Lock finalisation, with mappings shared by YAML aliases | `JsonValues`, `SharedMappings`, `LockFinalization`, `SharedTemplates` |
| Atomic receipt writing | `AtomicWrite` |
| Shared values and collection facts | `Wrappers`, `Collections` |

Code that works step by step is a method or a class with loops, proved against a predicate or function;
the theorems are about those predicates and functions, or are invariants of the class. Scores are `real`
numbers. `dafny verify dfyconfig.toml` checks everything.

Where the code does not do what its documentation or a first reading suggests, the code is modelled as it
is and the members named here state the difference and when it arises:

* `cleanup_task_docker_resources` protects a volume that is explicitly mounted only in the container whose
  mounts are being inspected. If another container of the same run mounts that volume, all volumes of that
  container are image-created and none of them has a user outside the run, that container is removed with `-v`,
  which may drop the volume
  (`DockerCleanup.ExplicitMountElsewhereDoesNotProtect`, `DockerCleanup.RequestedVolumesProtectedExactly`).
* `write_json_atomic` removes its draft only on an `OSError`. A value that cannot be encoded, a crash, or a
  failing removal may leave the draft, and every later call for that path then refuses until someone removes it
  (`AtomicWrite.ParentDirectory.WriteJsonAtomic`, `AtomicWrite.LeftoverBlocks`).
* A crash in the middle of writing the execution receipt leaves an unreadable file, which is treated as no
  progress; the platform objects are already there, so every later attempt stops at the namespace check
  (`PipelineExecutor.PipelineHost.ExecutePipeline`, `PipelineExecutor.PipelineHost.Attempts`). Nothing is
  applied twice, but the run cannot be resumed.
* `independent_hybrid_oracle` divides by the greatest trend score plus epsilon. For scores below minus epsilon
  this turns the trend order round, and for minus epsilon itself it raises
  (`HybridOracle.TrendDifferenceKept`, `HybridOracle.IndependentHybridOracle`).
* Render attempts keep their roots apart only when they follow one another: between the directory and the
  marker of one attempt, a second one may claim a root inside it (`RenderRoots.InterleavedAttemptsCanNest`).
* `teardown_run` finds the acceptance Pod by its `job-name` label, but `validate_complete_profile_inventory`
  expects that Pod to have exactly four labels, and that one is not among them. While the Pod exists, teardown
  refuses; it also refuses while there is an Event about that Pod's UID, because the authorised UIDs are taken
  before the Pod is added (`Teardown.FoundPodRefuses`, `TeardownPossible.TeardownWaitsForPodExactly`,
  `Teardown.EventsConcernRecords`).
* A ControllerRevision whose owner reference names a StatefulSet that no receipt records is authorised when the
  reference has no `uid`, because a missing UID equals the UID of a missing record
  (`Inventory.AuthorisedIsOwnedExactly`, `TeardownPossible.ForeignRevisionPasses`).
* `finalize_version_lock` merges in place into a deep copy, and both YAML aliases and `deepcopy` share mappings.
  If a base image is an alias of an image that the evidence describes, the lock can change the base image
  although the evidence does not mention it (`SharedTemplates.AliasedBaseImageChanges`). Every accepted
  finalisation keeps a base image, a pinned choice or an unmerged key exactly when accepted evidence cannot
  reach its mappings in another way (`SharedTemplates.BaseImagesKeptExactly`, `SharedTemplates.PinnedKeptExactly`,
  `SharedTemplates.OtherKeysKeptExactly`).

## Model

| member | source | states |
|---|---|---|
| RankMetrics.SucceedsExactly | scripts/experiments/module4c_responsiveness.py:141-173 | the comparison succeeds exactly for a positive K and truncated lists without repetition, and fails with the K error exactly for other K; a success reports K, the sentinel K+1, the sorted universe, overlap, changed products and total displacement as sums over the two truncated lists |
| RankMetrics.ZeroExactlyWhenEqual | scripts/experiments/module4c_responsiveness.py:150-172 | total displacement is never negative; it is zero, and no product counts as changed, exactly when the truncated lists are equal |
| RankMetrics.Symmetric | scripts/experiments/module4c_responsiveness.py:134-173 | the whole report, errors included, is the same with the two rankings exchanged |
| RankMetrics.Triangle | scripts/experiments/module4c_responsiveness.py:150-172 | at a common K the K+1 sentinel gives the triangle inequality, also for lists of unequal length |
| RankMetrics.SignedChangesDependOnLengths | scripts/experiments/module4c_responsiveness.py:150-157 | the signed rank changes summed over the union depend only on the lengths of the two lists |
| RankMetrics.EqualLengthsConserveRank | scripts/experiments/module4c_responsiveness.py:147-169 | for equally long lists the signed changes cancel, total displacement is even and the changed-product count is never one |
| RankMetrics.DisplacementBound | scripts/experiments/module4c_responsiveness.py:150-172 | total displacement is at most K(K+1), reached exactly by two full lists with nothing in common |
| RankMetrics.JaccardFromLists | scripts/experiments/module4c_responsiveness.py:158-166 | overlap and union add up to the two lengths; the similarity lies in [0, 1] and is one exactly when the lists have the same elements |
| ServingReceipt.IndexObjects | scripts/k8s/ownership.py:375-396 | the pass over the objects succeeds exactly when every object is of the run, labelled, and new in key and UID; it then holds the key index and all UIDs |
| ServingReceipt.CheckChild | scripts/k8s/ownership.py:414-439 | a declared child is found exactly when one object fits the pattern and its only owner is the one controller the pattern names |
| ServingReceipt.CheckChildren | scripts/k8s/ownership.py:413-442 | accepted exactly when every pattern binds one child and every Pod and ReplicaSet fits exactly one pattern |
| ServingReceipt.CheckImages | scripts/k8s/ownership.py:529-570 | accepted exactly when roles do not repeat and each record has the locked digest and runs in a Pod of its role |
| ServingReceipt.ValidateRuntimeReceipt | scripts/k8s/ownership.py:346-582 | the verdict is exactly the acceptance predicate the following theorems are about |
| ServingReceipt.FiveOwnedChildren | scripts/k8s/ownership.py:407-442 | an accepted receipt has exactly five Pods and ReplicaSets, each reaching a declared Deployment or StatefulSet in one or two owner steps |
| ServingReceipt.AllUidsDistinct | scripts/k8s/ownership.py:376-386 | in an accepted receipt objects, volume, StorageClass and node have pairwise different UIDs, none of them the cluster's or the namespace's |
| ServingReceipt.OneImagePerRole | scripts/k8s/ownership.py:522-570 | every serving role has exactly one image record, with the locked digest, in a Pod of that role |
| ServingReceipt.VerdictIgnoresOrder | scripts/k8s/ownership.py:346-582 | permuting objects and images does not change the verdict |
| ServingReceipt.AssertReceiptMatchesLive | scripts/k8s/ownership.py:585-625 | succeeds exactly when the recorded receipt is accepted and the live one holds the same evidence up to the order of objects and images |
| ServingReceipt.ComparisonIsPermutation | scripts/k8s/ownership.py:619-622 | on accepted receipts, comparing the key and role dictionaries is comparing the lists as multisets |
| ServingReceipt.MatchingIsAnEquivalence | scripts/k8s/ownership.py:585-625 | matching is reflexive, symmetric and transitive on accepted receipts, and carries acceptance over |
| ReceiptMeaning.ServingTarget | scripts/k8s/ownership.py:346-372 | an accepted serving receipt has the run's profile, context and namespace, and the three run labels on it |
| ReceiptMeaning.ServingObjects | scripts/k8s/ownership.py:374-396 | every recorded object is named, identified, labelled and in the run namespace; names and UIDs never repeat |
| ReceiptMeaning.ServingInventory | scripts/k8s/ownership.py:398-406 | apart from Pods and ReplicaSets, an object is recorded exactly when its kind and name are declared, spelled out by kind |
| ReceiptMeaning.ServingChildren | scripts/k8s/ownership.py:407-442 | the Pods and ReplicaSets are exactly the Mongo Pod under its StatefulSet and one ReplicaSet with one Pod under each of the API and UI Deployments |
| ReceiptMeaning.ServingStorage | scripts/k8s/ownership.py:444-520 | claim, volume and StatefulSet belong together; two GiB, read-write-once, retained, on the expected class and the profile's own host; volume, class and node have UIDs of their own |
| ReceiptMeaning.ClaimExactly | scripts/k8s/ownership.py:472-500 | the claim check accepts exactly the recorded claim of the database, unowned or controlled by the StatefulSet, bound to its volume on both sides |
| ReceiptMeaning.ServingImages | scripts/k8s/ownership.py:522-570 | each of the three image records has the expected digest in its reference and in what the node runs, and sits in a recorded Pod of its role |
| ReceiptMeaning.ClusterImages | scripts/k8s/ownership.py:571-582 | exactly the ten cluster components are recorded, each with the expected reference, pinned by a digest |
| ServingExample.AcceptedReceiptExistsExactly | scripts/k8s/ownership.py:346-582 | for every run, some serving receipt is accepted exactly when the expectation names all roles with digests, a StorageClass and a provisioner |
| PipelineReceipt.GroupPods | scripts/k8s/pipeline_receipts.py:505-527 | the loop succeeds exactly when every object passes its checks, and then groups the Pods by their owner |
| PipelineReceipt.CheckRole | scripts/k8s/pipeline_receipts.py:560-593 | a role passes exactly when it has enough records and each of them has the locked reference and digest and sits in a Pod of the workload it names |
| PipelineReceipt.CheckImages | scripts/k8s/pipeline_receipts.py:556-593 | passes exactly when all four roles pass |
| PipelineReceipt.ValidatePipelineReceipt | scripts/k8s/pipeline_receipts.py:465-593 | the verdict is exactly the acceptance predicate the following theorems are about |
| PipelineReceipt.AssertPipelineReceiptMatchesLive | scripts/k8s/pipeline_receipts.py:596-605 | succeeds exactly when the recorded receipt is accepted and equals the live one |
| PipelineReceipt.NineWorkloads | scripts/k8s/pipeline_receipts.py:503-528 | the six Job names differ from each other and from the three StatefulSets |
| PipelineReceipt.PodsBijectWithWorkloads | scripts/k8s/pipeline_receipts.py:502-530 | an accepted receipt has nine Pods, in bijection with the six Jobs and three StatefulSets |
| PipelineReceipt.EveryJobRecorded | scripts/k8s/pipeline_receipts.py:569-580 | by pigeonhole over six workloads, every Job has an image record bound to its Pod |
| PipelineReceipt.EveryPodImageLocked | scripts/k8s/pipeline_receipts.py:556-593 | every Pod has an image record with the lock's reference and digest, a StatefulSet Pod exactly one of its role |
| ReceiptMeaning.PipelineTarget | scripts/k8s/pipeline_receipts.py:465-488 | an accepted pipeline receipt has schema one, the run's profile, context and namespace with its labels, and the locked cluster |
| ReceiptMeaning.PipelineObjects | scripts/k8s/pipeline_receipts.py:489-527 | every recorded object is in the run namespace, labelled as the run's pipeline; names and UIDs never repeat and differ from the cluster's and the namespace's |
| ReceiptMeaning.PipelineInventory | scripts/k8s/pipeline_receipts.py:489-504 | apart from Pods, an object is recorded exactly when its kind and name are declared, spelled out by kind |
| ReceiptMeaning.PipelineJobs | scripts/k8s/pipeline_receipts.py:495-504 | exactly the six Jobs have a status, and each has succeeded once and is no longer active |
| ReceiptMeaning.PipelinePods | scripts/k8s/pipeline_receipts.py:505-527 | every Pod's one owner is its controller, a recorded Job or StatefulSet with that UID, which its name shows |
| ReceiptMeaning.PipelineStorage | scripts/k8s/pipeline_receipts.py:531-555 | the records cover the five claims with their sizes, each bound to its own volume on the locked class and the profile's own host |
| ReceiptMeaning.PipelineImages | scripts/k8s/pipeline_receipts.py:556-593 | every image record of the four roles shows the locked reference and digest, what its Pod runs, and a Pod of the workload of its role |
| PipelineExample.AcceptedReceiptExistsExactly | scripts/k8s/pipeline_receipts.py:465-593 | for every run, some pipeline receipt is accepted exactly when the lock is complete, names its cluster and StorageClass and pins all four image roles |
| Inventory.ReceiptObjectMap | scripts/k8s/teardown.py:40-53 | merging succeeds exactly when records of one key agree in UID, labels and owners |
| Inventory.ScanResource | scripts/k8s/teardown.py:245-265 | one list extends the scan exactly when every item is well formed and aliases agree in UID, labels and the owner references as listed; system objects are skipped and the first listing stays |
| Inventory.ScanNamespace | scripts/k8s/teardown.py:237-265 | the same over all resource types; a list that could not be fetched refuses |
| Inventory.ValidateEndpointsTargets | scripts/k8s/teardown.py:66-170 | passes exactly when there is a target and every one is an expected, live Pod of the run that the Service selects |
| Inventory.CheckDerived | scripts/k8s/teardown.py:276-344 | passes exactly when the object satisfies the authorisation of its kind: an Event about an authorised UID, a ControllerRevision whose one owner is a controlling StatefulSet with the receipted UID or neither recorded nor carrying a UID, an Endpoints or EndpointSlice of an expected Service |
| Inventory.CollectDerived | scripts/k8s/teardown.py:267-344 | passes exactly when all derived objects do; the collected keys are exactly those of derived kinds |
| Inventory.AddAcceptancePod | scripts/k8s/teardown.py:346-385 | the acceptance Pod is added exactly when one live Pod has its UID, labels, name and Job owner |
| Inventory.CompareLive | scripts/k8s/teardown.py:387-403 | passes exactly when live minus derived objects and the expected map agree in keys and in every identity |
| Inventory.CollectExpectedVolumes | scripts/k8s/teardown.py:405-412 | succeeds exactly when volume names and UIDs do not repeat across both receipts |
| Inventory.CollectObservedVolumes | scripts/k8s/teardown.py:415-427 | succeeds exactly when volume names do not repeat |
| Inventory.CheckVolumes | scripts/k8s/teardown.py:405-432 | passes exactly when the observed volumes are the receipted ones with their claims |
| Inventory.CheckClasses | scripts/k8s/teardown.py:433-452 | passes exactly when there is one StorageClass and it is the receipted one |
| Inventory.ValidateCompleteProfileInventory | scripts/k8s/teardown.py:172-452 | the verdict is exactly the inventory predicate; what it says about namespaces, objects, derived objects and storage is spelled out by the `DeletionScope` rows |
| Inventory.LivePartition | scripts/k8s/teardown.py:276-403 | every live object is either accounted for by a record or the acceptance evidence, or of a derived kind, never both |
| Inventory.AuthorisedIsOwnedExactly | scripts/k8s/teardown.py:286-302 | an authorised derived object is bound to something recorded exactly when it is no ControllerRevision whose owner reference lacks a UID; such a reference carries a UID exactly when it names an expected StatefulSet |
| Inventory.DerivedOwnedExactly | scripts/k8s/teardown.py:267-344 | under the guard's verdict, every derived object is bound to something recorded exactly when every ControllerRevision's owner reference carries a UID |
| Inventory.InventoryPartition | scripts/k8s/teardown.py:172-452 | for every listed object that is no system object: it is accounted for by a record or the acceptance evidence exactly when it is not of a derived kind; each derived one is authorised, and bound to something recorded exactly when it is no ControllerRevision without its owner's UID |
| Inventory.EveryRecordLive | scripts/k8s/teardown.py:387-403 | every record of both receipts is live with its UID, labels and owners |
| Inventory.EveryEvidenceLive | scripts/k8s/teardown.py:346-403 | the acceptance Job and Pod that the evidence names are listed with their identities |
| Inventory.AuthorisedUidsAreRecorded | scripts/k8s/teardown.py:271-275 | the UIDs an Event may be about are exactly those of the records, the acceptance Job, the namespace and the storage nodes; the acceptance Pod's is not among them |
| Inventory.VolumesBijectWithRecords | scripts/k8s/teardown.py:405-432 | volumes of the profile and storage records are in one-to-one correspondence |
| Inventory.OneStorageClass | scripts/k8s/teardown.py:433-452 | one StorageClass name serves every record and is the only one there is |
| Inventory.PipelineNamesFree | scripts/k8s/pipeline_receipts.py:489-526 | no object of an accepted pipeline receipt has a name the acceptance evidence could claim |
| Inventory.ServingNamesFree | scripts/k8s/ownership.py:398-442 | no object of an accepted serving receipt has a name the acceptance evidence could claim |
| DeletionScope.NamespacesExactly | scripts/k8s/teardown.py:182-206 | the namespace check accepts exactly the four system namespaces and the run's own one, this listed once, with both receipts' UID and the run labels |
| DeletionScope.ScannableExactly | scripts/k8s/teardown.py:245-265 | the scan accepts exactly items that are named, identified and in the run namespace, where two listings of one object show the same metadata |
| DeletionScope.RecordsAgreeExactly | scripts/k8s/teardown.py:40-53 | the receipts merge exactly when records of one name have the same UID, labels and owners |
| DeletionScope.VolumesExactly | scripts/k8s/teardown.py:405-432 | the volume check accepts exactly when no volume is recorded or listed twice and records and bound volumes match one another |
| DeletionScope.ClassesExactly | scripts/k8s/teardown.py:433-452 | the StorageClass check accepts exactly one class name, with the UID recorded and listed last |
| DeletionScope.RevisionExactly | scripts/k8s/teardown.py:286-302 | a ControllerRevision is authorised exactly when it has the run labels and one controlling StatefulSet, whose UID is the expected one, or missing when none of that name is expected |
| DeletionScope.ServiceExactly | scripts/k8s/teardown.py:304-342 | an Endpoints object or EndpointSlice resolves exactly when the Service it names is expected and live unchanged, and is its sole controller, or it is Endpoints without an owner |
| DeletionScope.TargetsExactly | scripts/k8s/teardown.py:66-170 | Endpoints are authorised exactly when their Service has a usable selector, there is an address, and each one, ready or not, stands for an expected Pod, live as expected and selected, and is one of its addresses |
| Teardown.CheckReceipts | scripts/k8s/teardown.py:640-648 | passes exactly when both live receipts were collected and match the recorded ones |
| Teardown.CheckGuards | scripts/k8s/teardown.py:597-676 | accepts exactly when every guard holds |
| Teardown.Delete | scripts/k8s/teardown.py:678-715 | the first command deletes the run namespace; the second, issued only after the first returned zero, deletes the profile; there is no third; the receipt lists exactly the commands that returned zero and says deleted exactly when both did |
| Teardown.TeardownRun | scripts/k8s/teardown.py:584-715 | for every behaviour of the executor, nothing is issued unless all guards passed; then the namespace and, after its success, the profile of this run, reported as in Delete |
| Teardown.DeletionReachesOnlyOwnedObjects | scripts/k8s/teardown.py:633-690 | if a delete command may be issued, every listed object is a receipted or acceptance object, unchanged, exactly when it is not of a derived kind; a derived one is authorised, and bound to something recorded unless it is a ControllerRevision without its owner's UID |
| Teardown.DeletionFindsEveryRecord | scripts/k8s/teardown.py:633-690 | if a delete command may be issued, every receipted object is live and unchanged |
| Teardown.DeletionFindsAcceptance | scripts/k8s/teardown.py:516-546 | if a delete command may be issued, the acceptance Job and Pod that were looked up are listed with the UIDs the evidence recorded |
| Teardown.FoundPodRefuses | scripts/k8s/teardown.py:363-403 | the Pod is looked up by a label that its recorded identity must not have: when the lookup is truthful and all guards pass, it found no Pod |
| Teardown.DeletionWaitsForPod | scripts/k8s/teardown.py:516-546 | with a truthful lookup, if a delete command may be issued, no listed Pod is owned by the acceptance Job |
| Teardown.EventsConcernRecords | scripts/k8s/teardown.py:267-284 | if a delete command may be issued, every Event is about the UID of a record, the acceptance Job, the namespace or a storage node; so an Event about a Pod whose UID is none of these makes the guards refuse |
| Teardown.DeletionReachesOnlyReceiptedVolumes | scripts/k8s/teardown.py:633-690 | if a delete command may be issued, the volumes are exactly the receipted ones |
| DeletionScope.AcceptancePodExactly | scripts/k8s/teardown.py:346-385 | the acceptance Pod is found exactly when one live Pod has its UID and that Pod has the owner, labels and name prefix of the acceptance Job |
| DeletionScope.DeletionWasAuthorised | scripts/k8s/teardown.py:601-667 | if a delete command may be issued, execution was asked for, lock and output path are fine, failure evidence was captured, both receipts are accepted and match the live cluster, and an acceptance receipt authorises this cluster and namespace |
| DeletionScope.DeletionMatchesLookup | scripts/k8s/teardown.py:516-546 | if a delete command may be issued, the Job and Pod of the acceptance receipt, or else of the failure evidence, are those looked up: none without a Job, and at most one Pod, which the Job controls |
| DeletionScope.LookupExactly | scripts/k8s/teardown.py:516-546 | the Job and Pod are looked up successfully exactly when the Job is absent, or found together with no Pod or with one that it alone controls, both with UIDs |
| DeletionScope.DeletionSparesForeignNamespaces | scripts/k8s/teardown.py:182-206 | if a delete command may be issued, the profile has the four system namespaces, the run's own one with the recorded UID and labels, and no other |
| DeletionScope.DeletionReadEverything | scripts/k8s/teardown.py:224-265 | if a delete command may be issued, every discovered resource was listed, every item is in the run namespace with a UID, and aliases agree |
| DeletionScope.DeletionReachesNothingElse | scripts/k8s/teardown.py:245-403 | if a delete command may be issued, every listed item but the default ServiceAccount and the root CA ConfigMap is a recorded object, the acceptance Job or its Pod, an Event, a ControllerRevision, an Endpoints object or an EndpointSlice |
| DeletionScope.DeletionReachesRevisions | scripts/k8s/teardown.py:286-302 | if a delete command may be issued, every ControllerRevision has the run labels and one controlling StatefulSet: the recorded one with its UID, or an unrecorded one given without UID |
| DeletionScope.DeletionReachesEndpoints | scripts/k8s/teardown.py:304-344 | if a delete command may be issued, every Endpoints object and EndpointSlice belongs to a recorded Service that is listed unchanged, and has no other owner |
| DeletionScope.DeletionReachesTargets | scripts/k8s/teardown.py:66-170 | if a delete command may be issued, every Endpoints address, ready or not, is a current address of a recorded and listed Pod that the Service selects, and there is at least one |
| DeletionScope.DeletionReachesRecordedStorage | scripts/k8s/teardown.py:405-432 | if a delete command may be issued, the volumes of the profile are exactly the recorded ones, each bound to its recorded claim in the run namespace |
| DeletionScope.DeletionReachesRecordedClass | scripts/k8s/teardown.py:433-452 | if a delete command may be issued, the profile has one StorageClass name, which every storage record names |
| TeardownPossible.TeardownPossibleExactly | scripts/k8s/teardown.py:597-676 | two accepted receipts can authorise a teardown, for some live evidence, exactly when they share the namespace UID, record different volumes and one StorageClass name |
| TeardownPossible.AcceptedAgree | scripts/k8s/teardown.py:40-53 | accepted receipts have no object name in common, so merging them never fails |
| TeardownPossible.GuardsSatisfiableExactly | scripts/k8s/teardown.py:597-676 | for every run, all guards pass for some evidence exactly when both locks admit an accepted receipt |
| TeardownPossible.TeardownWaitsForPodExactly | scripts/k8s/teardown.py:516-546 | with an acceptance Job, a truthful lookup and compatible accepted receipts, a teardown is possible exactly when the lookup finds no Pod |
| TeardownPossible.ForeignRevisionPasses | scripts/k8s/teardown.py:286-302 | the failing input: a ControllerRevision of a StatefulSet that no receipt records, with no UID in its owner reference, is listed and all guards pass |
| DockerCleanup.ContainerVolumeMounts | scripts/experiments/module4c_streaming_demo.py:1569-1603 | the loop splits the volume mounts into image-created anonymous ones and all others, in order |
| DockerCleanup.MountsHold | scripts/experiments/module4c_streaming_demo.py:1569-1603 | no unsafe mount is reported exactly when every volume mount is image-created; anonymous mounts have anonymous names |
| DockerCleanup.LoadPrevious | scripts/experiments/module4c_streaming_demo.py:1676-1699 | the captured volumes are the valid ones of a receipt of the same run, each name once, with their container IDs; no error exactly when there is no receipt or a usable one of this run |
| DockerCleanup.InspectRoles | scripts/experiments/module4c_streaming_demo.py:1705-1757 | every container taken for removal was found under its run name with the run's labels; the captured names are exactly those loaded and the anonymous volumes of these containers; without a failure and with unique names all of the run's containers are taken, and no error means that whatever has a run name is the run's and mounts image-created volumes only |
| DockerCleanup.InspectRole | scripts/experiments/module4c_streaming_demo.py:1705-1757 | one name: a verified container is taken and its anonymous volumes captured; without a failure and with unique names, no error means exactly that whatever has the name is the run's and mounts image-created volumes only |
| DockerCleanup.FindExternal | scripts/experiments/module4c_streaming_demo.py:1765-1793 | without a failure, exactly the captured volumes with a user that abbreviates no owned container are external, and there is an error exactly when there is one; after a failure, no volume with such a user is missed |
| DockerCleanup.RemoveContainers | scripts/experiments/module4c_streaming_demo.py:1795-1811 | the planned removals are issued in order, all of them unless one raises; without a failure exactly the containers of the tasks are gone; only containers taken for removal disappear, and only volumes of those with nothing to keep |
| DockerCleanup.RemoveVerified | scripts/experiments/module4c_streaming_demo.py:1759-1811 | only containers of the run go, volumes only with one that may drop them; without a failure and with all of the run's containers taken, exactly these are removed, `-v` is issued exactly where it may, and there is no error exactly when no outsider uses a captured volume |
| DockerCleanup.RemoveRunNetwork | scripts/experiments/module4c_streaming_demo.py:1813-1828 | without a failure, an owned network of the run's name is removed by exactly one command, and a network of that name without the labels is left alone and objected to; whatever happens only the run's network goes, and every failure is reported |
| DockerCleanup.LookAgain | scripts/experiments/module4c_streaming_demo.py:1830-1866 | if nothing is reported as remaining, no container or network of the run, by name or label, and no captured volume is left; without a failure the converse holds and there is no error |
| DockerCleanup.CleanupTaskDockerResources | scripts/experiments/module4c_streaming_demo.py:1643-1872 | whatever happens, and wherever the call ends: only resources of the run go, a volume only with a run container all of whose volumes are image-created and unused outside the run; the persisted names grow and cover what was removed; completion leaves nothing and means that nothing failed. Without a failure it returns, removes exactly the run's containers and its network, issues `-v` for exactly the volumes that may go, knows exactly the volumes of its containers and of the receipt, and is complete exactly when there was nothing to object to and nothing is left |
| DockerCleanup.NetworkRemovedExactly | scripts/experiments/module4c_streaming_demo.py:1813-1828 | without a failure and with a name of its own, a network is removed, by the one command issued, exactly when it is the run's |
| DockerCleanup.OwnedExactly | scripts/experiments/module4c_streaming_demo.py:1606-1620 | a container or network is the run's exactly when it has one of the four names, or the network name, and the two labels |
| DockerCleanup.ValidRunIdExactly | scripts/experiments/module4c_streaming_demo.py:127-131 | a run ID is accepted exactly when it is `c8b-`, eight digits, `t`, six digits, `z-` and eight hexadecimal digits |
| DockerCleanup.SplitExactly | scripts/experiments/module4c_streaming_demo.py:1579-1583 | splitting a bind at colons leaves no colon in a part, and joining the parts gives it back |
| DockerCleanup.DroppedMayGo | scripts/experiments/module4c_streaming_demo.py:1765-1806 | if abbreviated IDs are unambiguous, a container removed with its volumes has only image-created ones, none of which any container outside the run mounts |
| DockerCleanup.DroppableKeepsNothing | scripts/experiments/module4c_streaming_demo.py:1795-1806 | conversely, with truthful listings a container that may be removed with its volumes keeps none of them |
| DockerCleanup.RequestsAreExact | scripts/experiments/module4c_streaming_demo.py:1795-1806 | if every reply was there, removal with `-v` is planned for exactly the volumes that may go |
| DockerCleanup.DroppedVolumesAreUnclaimed | scripts/experiments/module4c_streaming_demo.py:1585-1603 | a volume that may go is anonymous, image-created where it is dropped, and unused outside the run |
| DockerCleanup.ExplicitMountElsewhereDoesNotProtect | scripts/experiments/module4c_streaming_demo.py:1795-1806 | the failing input, with unique names and unambiguous IDs: of two run containers that mount the volume the first in the order of removal asks for it, and the verified task of the second keeps nothing and is removed with `-v` |
| DockerCleanup.RequestedVolumesProtectedExactly | scripts/experiments/module4c_streaming_demo.py:1795-1806 | a volume that a run container asks for is safe exactly when no other run container that mounts it may be removed with its volumes: all of them image-created and none with a user outside the run |
| DockerCleanup.CapturedNeverShrinks | scripts/experiments/module4c_streaming_demo.py:1674-1764 | over any calls with the receipt file intact between them, the captured set never shrinks |
| DockerCleanup.CompletionLeavesNothing | scripts/experiments/module4c_streaming_demo.py:1830-1872 | a completed call leaves no container or network of the run, no volume captured by any earlier call, and no anonymous volume of a container an earlier call removed |
| PipelineExecutor.PipelineHost.RequireNamespaceClear | scripts/k8s/pipeline.py:633-664 | with every listing answered, succeeds exactly in a namespace with no reserved name and no object labelled as this run's pipeline; after a failed listing it does not succeed |
| PipelineExecutor.PipelineHost.Issue | scripts/k8s/pipeline.py:866-905 | a command is logged with the namespace it was issued in and its result, and may be issued only if that namespace and the log so far permit it; every history keeps this |
| PipelineExecutor.PipelineHost.WriteReceipt | scripts/k8s/pipeline.py:879-881 | a completed write records exactly the completed phases; a stop halfway may leave an unreadable file, and the invariant holds all the same |
| PipelineExecutor.PipelineHost.RunPlatform | scripts/k8s/pipeline.py:864-881 | applied only before any progress and in a clear namespace; the commands are the platform route, in order, up to the first failure; done exactly when nothing failed, and then the receipt records the first phase |
| PipelineExecutor.PipelineHost.RunStep | scripts/k8s/pipeline.py:883-941 | applied only after all earlier phases completed; the commands are apply, staging in full-data mode and wait, in order, up to the first failure; done exactly when nothing failed, and then the receipt records the phase; a failed wait is written into the receipt |
| PipelineExecutor.PipelineHost.ExecutePipeline | scripts/k8s/pipeline.py:783-959 | one attempt, stopped anywhere, keeps the invariant, of which the history theorems are consequences. The commands it issues are those of the phases that the receipt does not record, in order, up to the first failure; it finishes exactly when nothing fails and there is a readable receipt or a clear namespace, and has then applied exactly the Jobs of the missing steps and recorded all seven phases; after an unreadable receipt it applies nothing |
| PipelineExecutor.PipelineHost.Attempts | scripts/k8s/pipeline.py:783-959 | the same over any number of attempts with others creating objects in between |
| PipelineExecutor.PipelineHost.ReceiptProgress | scripts/k8s/pipeline.py:843-853 | a readable list of completed steps is a prefix of platform plus the six steps, and all of them completed |
| PipelineExecutor.PipelineHost.ClearMeansFresh | scripts/k8s/pipeline.py:852-853 | the namespace check passes only if no receipt was ever started |
| PipelineExecutor.JobsOfRemaining | scripts/k8s/pipeline.py:883-895 | the phases that remain after the first n call for one Job each, those of the remaining steps in order |
| PipelineExecutor.RoutesSpelledOut | scripts/k8s/pipeline.py:864-941 | the seven phases, and the commands of the platform and of a step, in order |
| PipelineExecutor.PlatformAwaitsAll | scripts/k8s/pipeline.py:868-877 | every claim and every StatefulSet that the platform creates is awaited before its phase is recorded |
| PipelineExecutor.ClearExactly | scripts/k8s/pipeline.py:633-664 | the namespace counts as clear exactly when no object of the eight listed kinds has a reserved name or the pipeline's labels |
| PipelineExecutor.EarlierPhasesCompletedFirst | scripts/k8s/pipeline.py:864-941 | in every history, when a Job is applied every earlier phase has completed: its successful apply and, later, the successful wait for it are in the log before |
| PipelineExecutor.RecordedPhaseNotAppliedAgain | scripts/k8s/pipeline.py:864-885 | in every history, a phase that a receipt recorded is never applied again |
| PipelineExecutor.PlatformStartsClear | scripts/k8s/pipeline.py:852-866 | in every history, the namespace logged when the platform is applied holds, among the eight listed kinds, no declared object, Job or StatefulSet Pod of the pipeline and no object labelled as this run's pipeline |
| PipelineExecutor.ReceiptsArePrefixes | scripts/k8s/pipeline.py:878-941 | in every history, each receipt holds a prefix of the phases, each of which reached its milestones before |
| SampleDataset.SelectOrders | scripts/sample_dataset.py:27-51 | the one-pass loop keeps exactly the orders of the first n distinct users, and the IDs of their prior and train orders |
| SampleDataset.FilterOrderProducts | scripts/sample_dataset.py:56-65 | keeps exactly the items of valid orders and adds their products to the referenced ones |
| SampleDataset.FilterProducts | scripts/sample_dataset.py:70-82 | keeps exactly the referenced products, with their aisles and departments |
| SampleDataset.FilterById | scripts/sample_dataset.py:85-93 | keeps exactly the rows with a valid ID |
| SampleDataset.ExtractSampleDataset | scripts/sample_dataset.py:17-123 | the six tables are the extraction function of the source, and the counts are theirs |
| SampleDataset.FirstUsersExactly | scripts/sample_dataset.py:37-45 | a user is selected exactly when one of the user's orders comes before n users have been seen |
| SampleDataset.ExtractSpelledOut | scripts/sample_dataset.py:27-96 | row by row for all six tables: orders of selected users, items of their prior and train orders, the products of those items, and the aisles and departments of those products |
| SampleDataset.FirstUsersStep | scripts/sample_dataset.py:39-45 | one more order admits its user only if new and while there is room, and never revives orders already skipped |
| SampleDataset.SamplingComposes | scripts/sample_dataset.py:27-96 | extracting m users from an n-user extract equals extracting min(m, n) users from the source, in all six tables |
| SampleDataset.SamplingIsIdempotent | scripts/sample_dataset.py:27-96 | extracting twice is extracting once |
| SampleDataset.ExtractIsTight | scripts/sample_dataset.py:53-96 | whatever the source, items belong to kept orders of their set and no product, aisle or department is unreferenced |
| SampleDataset.IntegrityPreserved | scripts/sample_dataset.py:27-96 | if every foreign key of the source resolves, every foreign key of the extract does |
| SampleDataset.UnchangedExactly | scripts/sample_dataset.py:27-96 | the extract is the source itself exactly when the source is tight and has at most n users |
| Ranking.SortedUnique | scripts/experiments/module4c_streaming_demo.py:358-358 | with unique IDs there is only one list of the rows sorted by score descending, then ID |
| Ranking.PositionIsPrecedence | scripts/experiments/module4c_streaming_demo.py:358-360 | in that list, earlier position and precedence by score and ID are the same |
| Ranking.SortMapped | scripts/experiments/module4c_streaming_demo.py:358-358 | sorting commutes with any change of the rows that keeps their keys |
| TrendOracle.NormaliseColumn | scripts/experiments/module4c_streaming_demo.py:351-355 | each norm times the range of the counts is the count minus the least one; zero when all counts agree |
| TrendOracle.IndependentTrendOracle | scripts/experiments/module4c_streaming_demo.py:321-361 | refuses exactly a K outside 1 to the number of products; otherwise returns the first K ranked rows |
| TrendOracle.CountIsCardinality | scripts/experiments/module4c_streaming_demo.py:333-349 | the counts of a product are the numbers of its events in the half-open window and in its last 30 minutes |
| TrendOracle.CountsAreOnePass | scripts/experiments/module4c_streaming_demo.py:333-349 | scanning all events once per product gives the counts of a single pass over half-open windows |
| TrendOracle.ReplicationKeepsRanking | scripts/experiments/module4c_streaming_demo.py:331-361 | repeating every event m times, in any order, multiplies the counts by m and leaves norms, scores, order and ranks alone |
| TrendOracle.OrderOfEventsIsIrrelevant | scripts/experiments/module4c_streaming_demo.py:331-361 | permuting the events changes nothing at all |
| TrendOracle.ShortAtMostLong | scripts/experiments/module4c_streaming_demo.py:339-343 | the short-window count never exceeds the long-window count |
| TrendOracle.TrendIsTheOrder | scripts/experiments/module4c_streaming_demo.py:350-361 | each product once, ranks from one, by falling score and then rising ID; counts are the product's own; for the least and greatest count over all products, which exist, each norm is in proportion between them, and the score is 0.7 and 0.3 of the short and long norm |
| HybridOracle.IndexTrends | scripts/experiments/module4c_streaming_demo.py:373-373 | the last row of a product decides, a product without a row scores zero |
| HybridOracle.IndependentHybridOracle | scripts/experiments/module4c_streaming_demo.py:364-389 | raises exactly for a weight outside [0, 1] or a greatest score of minus epsilon; otherwise returns all products scored, sorted and numbered |
| HybridOracle.RowHolds | scripts/experiments/module4c_streaming_demo.py:370-384 | each row's ALS norm is in proportion between the extremes, its trend norm a part of the greatest score, both with 1e-12 added to the divisor, and its score their blend; the trend score is that of the product's last row |
| HybridOracle.RowDataExists | scripts/experiments/module4c_streaming_demo.py:369-373 | for every input with products there are such extremes, a greatest score and a last score |
| HybridOracle.ScoresBelowOne | scripts/experiments/module4c_streaming_demo.py:376-383 | for non-negative trend scores both normalised scores and the final score lie in [0, 1) |
| HybridOracle.AlsOrderAtOne | scripts/experiments/module4c_streaming_demo.py:376-386 | weight one gives the order by ALS score descending, then ID |
| HybridOracle.TrendOrderAtZero | scripts/experiments/module4c_streaming_demo.py:377-386 | weight zero gives the order by trend score descending, then ID, for non-negative scores |
| HybridOracle.TrendDifferenceKept | scripts/experiments/module4c_streaming_demo.py:377-377 | a strict trend difference survives normalisation exactly when the greatest score is not zero and above minus epsilon |
| HybridOracle.AheadOnAnInterval | scripts/experiments/module4c_streaming_demo.py:382-386 | the weights at which one product is ahead of another form an interval |
| HybridOracle.AtMostOneCrossing | scripts/experiments/module4c_streaming_demo.py:382-386 | exactly one of two products leads at each weight, and a lead once lost is never regained |
| HybridOracle.AlwaysAheadExactly | scripts/experiments/module4c_streaming_demo.py:376-386 | a product is ahead at every weight exactly when it is ahead both by ALS score and by trend score, ties by ID |
| HybridOracle.HybridIsTheOrder | scripts/experiments/module4c_streaming_demo.py:384-389 | the result lists each product once, ranked from one, by falling score and then rising ID, which is the order of being ahead |
| AtomicWrite.ParentDirectory.WriteJsonAtomic | scripts/k8s/common.py:65-96 | says for every result what it means and what it leaves: refusals touch nothing; in every state of the call but the last the target is what it was; success means complete, synced content with the mode and no draft; an OSError with a working removal restores the directory, and with a failing one leaves at most the draft; an encoding error leaves the draft. If no system call fails, a call that is not refused publishes every document that can be encoded, unless the target is a directory |
| AtomicWrite.ParentDirectory.WriteBody | scripts/k8s/common.py:86-89 | all pieces written means the draft holds the complete document; until then only the draft changes |
| AtomicWrite.ParentDirectory.Finish | scripts/k8s/common.py:90-93 | the target becomes the synced complete draft in one step, or nothing but the draft has changed |
| AtomicWrite.CrashIsAllOrNothing | scripts/k8s/common.py:74-93 | lose power after any system call of a call, with the directory as it was at some point of that call: the target reads as before or as the complete new document |
| AtomicWrite.Campaign | scripts/k8s/common.py:65-96 | over any calls of one writer, with power losses that take the directory, which is never synced, back to any state since the campaign began or the last loss, a reader finds the first content or one complete document |
| AtomicWrite.LeftoverBlocks | scripts/k8s/common.py:83-85 | while a draft is left behind every call refuses and changes nothing |
| RenderRoots.AbsolutePathWithoutSymlinks | scripts/k8s/render.py:46-66 | accepts exactly when no visited name is a link or fails its status call, and returns the normal form of the path, all prefixes of which are absent or no links; a link refusal names a real link |
| RenderRoots.AbsPath | scripts/k8s/render.py:66-66 | the `normpath` stack computes the same normal form as the walk |
| RenderRoots.NormalForm | scripts/k8s/render.py:66-66 | the laws that determine the normal form: dots and name-dotdot pairs vanish, dotdot at the root vanishes, proper paths stay |
| RenderRoots.WalkAgreesWithResolution | scripts/k8s/render.py:52-66 | on an accepted path, pathname resolution (POSIX.1-2017 Base Definitions, section 4.13) succeeds exactly when all components are present, and then reaches the returned path |
| RenderRoots.ValidateOutputPath | scripts/k8s/render.py:94-117 | passes exactly when the parent is a directory, the destination is free, no protected root overlaps, no `.git` component occurs and no ancestor has a marker |
| RenderRoots.ClaimIsSeparate | scripts/k8s/render.py:101-117 | a destination that passes neither contains nor lies in a claimed root or a protected one |
| RenderRoots.ClaimSpelledOut | scripts/k8s/render.py:94-117 | on a path without links and markers above it, the checks accept exactly a new entry below the top level in an existing directory, outside Git metadata and apart from the known protected roots; a marker above that is no link makes them refuse |
| RenderRoots.RenderHost.Claim | scripts/k8s/render.py:199-200 | the directory and then the marker are created exclusively; stopping before, between or after keeps the invariant, and only a root with its marker counts as claimed |
| RenderRoots.RenderHost.RenderOverlay | scripts/k8s/render.py:192-200 | one attempt, stopped anywhere, keeps claimed roots marked, apart from each other and from protected roots; it succeeds exactly when nothing fails and the walk and the output checks accept |
| RenderRoots.RenderRun | scripts/k8s/render.py:94-200 | the same over any attempts with crashes between directory and marker and others adding entries: claimed roots hold their marker, lie outside Git metadata and below the top level, and overlap neither each other nor protected roots |
| RenderRoots.InterleavedAttemptsCanNest | scripts/k8s/render.py:199-200 | between the directory and the marker of one attempt the checks admit a root inside it; all names both then create are free, and the final tree has both roots marked, one inside the other |
| SharedMappings.ObjectHeap.MergeMapping | scripts/k8s/lock_lifecycle.py:109-116 | whatever is shared, merging in place does what the heap function says, key by key in the order of the evidence; where nothing writable is reached twice, the mapping then shows the merge of the two values |
| SharedMappings.ObjectHeap.DeepCopy | scripts/k8s/lock_lifecycle.py:116-116 | copied evidence shows the same value in new mappings only, and nothing that was there changes |
| SharedMappings.MergeShows | scripts/k8s/lock_lifecycle.py:109-116 | without sharing, the merge shows the merged value, stays without sharing, and changes nothing but the mappings it can reach by keys |
| SharedMappings.InPlaceMergeExactly | scripts/k8s/lock_lifecycle.py:109-116 | merging in place shows the merge of the values for all evidence exactly when no mapping that keys lead to is reached in a second way |
| SharedMappings.CopyShows | scripts/k8s/lock_lifecycle.py:193-193 | a deep copy shows the same value and shares exactly what the original shares |
| JsonValues.MergeAtPath | scripts/k8s/lock_lifecycle.py:109-116 | the value at every path after a merge: kept where the evidence is silent, gone below a value it put there, otherwise the evidence's |
| JsonValues.MergeAgain | scripts/k8s/lock_lifecycle.py:109-116 | merging the same evidence again changes nothing |
| LockFinalization.MergeSection | scripts/k8s/lock_lifecycle.py:194-198 | a section is created if missing and merged; it fails exactly when the evidence is no mapping or would be written into something else |
| LockFinalization.AddSections | scripts/k8s/lock_lifecycle.py:194-198 | the loop over the required sections, in any order, succeeds exactly when every section can be merged, and touches nothing older than the copy |
| LockFinalization.CheckEvidence | scripts/k8s/lock_lifecycle.py:160-192 | accepts exactly when the template is valid, all sections are there and the observed choices are the template's |
| LockFinalization.EvidenceCheckedExactly | scripts/k8s/lock_lifecycle.py:160-192 | the checks accept exactly a well-shaped template, and evidence with all seven sections that observes the six pinned cluster choices, names profile, context (the same), cluster UID and architecture, has the template's Minikube version in its toolchain, and repeats the three base images where it mentions them |
| LockFinalization.AcceptedLock | scripts/k8s/lock_lifecycle.py:200-206 | an accepted lock counts at least one node, and its toolchain's Minikube version is the cluster's |
| LockFinalization.FinalizeVersionLock | scripts/k8s/lock_lifecycle.py:157-206 | for every acyclic template: succeeds exactly when the checks accept the template, the evidence and the lock as assembled on the heap; everything that was on the heap before is as it was, and the lock is new |
| LockFinalization.FinalizationExactly | scripts/k8s/lock_lifecycle.py:193-200 | over all evidence whose sections can be merged, accepted or not, and all section orders: the lock shows the finalised value exactly when no mapping under a merged section is reached in a second way, other than under a key that finalisation replaces |
| LockFinalization.FinalizesTheValue | scripts/k8s/lock_lifecycle.py:157-206 | for such a template, finalisation accepts exactly what finalising the values accepts, and the lock shows the finalised value |
| LockFinalization.ChoicesPinned | scripts/k8s/lock_lifecycle.py:176-206 | the lock of a template without such sharing keeps the Kubernetes, driver, runtime, CNI, CNI version and node-count choices, the Minikube version and the three base images |
| LockFinalization.StaticChoicesPinned | scripts/k8s/lock_lifecycle.py:176-206 | finalised values have the template's Kubernetes, driver, runtime, CNI, CNI version, node count, Minikube version and three base images, the status complete, nothing unresolved and the evidence's image provenance |
| LockFinalization.ToolchainDecides | scripts/k8s/ownership.py:775-776 | the lock's toolchain Minikube version is the template's, which pins the cluster's |
| LockFinalization.UnmentionedPathsKept | scripts/k8s/lock_lifecycle.py:193-198 | in finalised values, every path of a merged section that the evidence does not reach keeps the template's value |
| LockFinalization.FinalizingAgain | scripts/k8s/lock_lifecycle.py:157-206 | finalising the values again with the same evidence gives the same lock, and is accepted exactly when the lock passes the static rules |
| LockFinalization.FinalizingAgainOnHeap | scripts/k8s/lock_lifecycle.py:157-206 | the lock of a template without harmful sharing has none either; finalising it on the heap with the same evidence, in any order, shows the same lock and is accepted exactly when the lock passes the static rules |
| SharedTemplates.FinalizationSteady | scripts/k8s/lock_lifecycle.py:168-200 | whatever is shared, an accepted finalisation changes only mappings that keys of a merged section lead to, through none whose value the checks fix or require to be text, and leaves a fixed key alone where its mapping is reached in no second way |
| SharedTemplates.BaseImagesKeptExactly | scripts/k8s/lock_lifecycle.py:176-206 | every accepted finalisation, under whatever field rules, keeps a base image exactly when none is ever accepted or no mapping of the base record is exposed: reached from a merged section by keys that accepted evidence may fill |
| SharedTemplates.UnexposedIsKept | scripts/k8s/lock_lifecycle.py:176-206 | the sufficient half without any condition on the node count |
| SharedTemplates.ExposedBaseChanges | scripts/k8s/lock_lifecycle.py:176-206 | for every admissible template with an exposed base record, accepted evidence after which the lock shows another base image |
| SharedTemplates.PinnedKeptExactly | scripts/k8s/lock_lifecycle.py:173-177 | every accepted finalisation keeps a pinned cluster choice exactly when none is ever accepted or the cluster is reached in no second way by keys that accepted evidence may fill |
| SharedTemplates.OtherKeysKeptExactly | scripts/k8s/lock_lifecycle.py:193-200 | every accepted finalisation shows the same under a key that is neither merged nor replaced exactly when none is ever accepted or nothing under the key is exposed |
| SharedTemplates.AliasedBaseImageChanges | scripts/k8s/lock_lifecycle.py:176-206 | in any template in which a base image is the same mapping as another image and nothing else that can be written is shared, every accepted finalisation without base images in its evidence that merges the images last shows the other image's new record as the base image |

## Left out

- Shape checks on parsed JSON and YAML (`isinstance`, missing keys): values of the modelled types already have their shape; what the source does with an absent value, such as an owner reference without `uid`, is modelled.
- Regular expressions for digests, versions, quantities and image names: abstract predicates or parsed values. Only the anonymous-volume and run-ID patterns are spelled out.
- Running `kubectl`, `minikube`, `docker` and Git, and collecting live receipts: their replies are inputs or nondeterministic results.
- Parsing and printing of receipts: comparison works on parsed receipts.
- Floating-point rounding, NaN and infinities: scores are exact reals, so orders that hang on the last bit are not covered.
- Python's equality across types (`1`, `1.0`, `True`): values of different JSON types are different.
- Event and trend-row generators: both oracles read their input more than once and would find a generator empty; inputs are lists.
- CSV reading, headers and byte counts of the sampler: tables are row lists in their column order.
- Concurrent writers: one writer per receipt, one cleanup and one executor attempt at a time; other actors act between calls, and for render attempts also between the steps of a claim.
- Links that others create between the component walk and the output path checks of a render attempt.
- Everything `render_overlay` writes after the marker, the manifests, `demo.py`, `acceptance.py`, network policies, dashboards and Spark jobs.
- The field rules of the three lock validators beyond shapes, a counted cluster, Minikube equality and pinned choices: they are arbitrary predicates of one lock.
- Cyclic YAML templates: the heap of a template is acyclic.
- Sharing inside the runtime evidence: evidence is a value. It is copied value by value, so its own aliases can only matter where the template shares mappings as well.
- SharedTemplates.BaseImagesKeptExactly: for templates whose node count is a positive number, as the finished lock needs it; for others only the sufficient half is proved (`SharedTemplates.UnexposedIsKept`).
- SharedTemplates.OtherKeysKeptExactly: likewise, with `SharedTemplates.UnexposedIsShown` as the sufficient half.
- SharedTemplates.PinnedKeptExactly: only for templates whose node count is a positive number.
- SharedTemplates.ExposedBaseChanges: the evidence has the least that the modelled checks require, so it is accepted by permissive field rules; which exposed templates the full field rules accept is not modelled.
- SharedTemplates.AliasedBaseImageChanges: the field rules are arbitrary, and what they accept is an assumption about this one template, evidence and lock.
- Authority, lock and capacity preflights of the executor: one nondeterministic step that may stop the attempt before anything is applied.
- DockerCleanup.CleanupTaskDockerResources: its own receipt write is one step; a crash inside that write, which is not atomic, is outside the model, so the file is intact between calls.
- DockerCleanup.DroppedMayGo: assumes that each abbreviated container ID stands for one container, as the comparison by prefix does.
- DockerCleanup.RequestsAreExact: also assumes that container names are unique, as Docker keeps them, and that every inspection and listing answered truthfully.
- DockerCleanup.CleanupTaskDockerResources: that no error is reported exactly when there is nothing to object to also assumes a network name of its own.
- Other actors between the namespace check and the apply of the platform: they act between attempts.
- How the captured failure evidence names the acceptance Job: its UIDs are an input of the guards.
- Teardown.TeardownRun: a failure to write the teardown receipt after the deletions is not modelled; the outcome says what would be written.
- RenderRoots.ValidateOutputPath: protected roots are given, already resolved; how Git lists them is not modelled.
