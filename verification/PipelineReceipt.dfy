/**
 The B3 pipeline receipt: its validation and its comparison with live identities
 (scripts/k8s/pipeline_receipts.py).
 */
module PipelineReceipt {
  import opened Wrappers
  import opened Collections
  import opened Ownership

  datatype JobStatus = JobStatus(succeeded: int, active: int)

  /** Quantities are byte counts. */
  datatype Storage = Storage(
    claimName: string, claimUid: string, requestedStorage: string, capacity: nat, accessMode: string,
    volumeName: string, volumeUid: string, claimRefNamespace: string, claimRefName: string, claimRefUid: string,
    storageClass: string, storageClassUid: string, provisioner: string, localityKind: string, localityPath: string,
    nodeName: string, nodeUid: string, profileLocal: bool, owners: seq<Owner>)

  datatype Role = Kafka | HdfsNameNode | HdfsDataNode | PipelineApplication | OtherRole(name: string)

  datatype Image = Image(
    workload: string, podName: string, podUid: string, containerName: string, role: Role,
    declaredReference: string, runtimeImageId: string, digest: string, configDigest: string)

  datatype Receipt = Receipt(
    schemaVersion: int, profile: string, context: string, clusterUid: string, namespace: string,
    namespaceUid: string, namespaceLabels: Labels, objects: seq<ObjectRecord>,
    jobStatus: map<string, JobStatus>, storage: seq<Storage>, images: seq<Image>)

  /** A locked image: the digest-pinned reference and the digest itself. */
  datatype LockedImage = LockedImage(reference: string, digest: string)

  datatype Lock = Lock(
    complete: bool, clusterUid: string, images: map<Role, LockedImage>,
    storageClassUid: string, provisioner: string)

  const STEPS: seq<string> := ["input", "module1", "module2", "module4", "replay", "hybrid"]
  const STATEFUL_NAMES: set<string> := {"hdfs-namenode", "hdfs-datanode", "kafka"}
  const ROLES: seq<Role> := [Kafka, HdfsNameNode, HdfsDataNode, PipelineApplication]
  const GIB: nat := 1024 * 1024 * 1024

  /** The five claims: the requested size as written, and in bytes. */
  const CLAIMS: map<string, (string, nat)> := map[
    "it4931-hdfs-namenode" := ("1Gi", GIB),
    "it4931-hdfs-datanode" := ("16Gi", 16 * GIB),
    "it4931-kafka-data" := ("2Gi", 2 * GIB),
    "it4931-pipeline-data" := ("16Gi", 16 * GIB),
    "it4931-pipeline-checkpoints" := ("2Gi", 2 * GIB)]

  const POLICY_NAMES: set<string> := {
    "allow-pipeline-egress", "allow-pipeline-to-hdfs", "allow-pipeline-to-datanode",
    "allow-datanode-to-namenode", "allow-datanode-egress-to-namenode",
    "allow-kafka-controller-self", "allow-pipeline-to-kafka", "allow-pipeline-to-mongo",
    "allow-acceptance-api-egress", "allow-acceptance-to-api"}

  const CONFIG_NAMES: set<string> := {"it4931-pipeline-config"}
  const ACCOUNT_NAMES: set<string> := {"module4d-pipeline"}
  const SERVICE_NAMES: set<string> := {"namenode", "datanode", "kafka"}

  function Keyed(kind: Kind, names: set<string>): set<Key> {
    set name | name in names :: (kind, name)
  }

  const DIRECT_OBJECTS: set<Key> :=
    Keyed(ConfigMap, CONFIG_NAMES) + Keyed(ServiceAccount, ACCOUNT_NAMES) + Keyed(PersistentVolumeClaim, CLAIMS.Keys)
    + Keyed(Service, SERVICE_NAMES) + Keyed(StatefulSet, STATEFUL_NAMES) + Keyed(NetworkPolicy, POLICY_NAMES)

  function JobNames(run: RunIdentity): set<string> {
    set step | step in STEPS :: JobName(step, run.runId)
  }

  /** The controllers whose Pods the receipt must show: six Jobs and three StatefulSets. */
  function Workloads(run: RunIdentity): set<Key> {
    Keyed(Job, JobNames(run)) + Keyed(StatefulSet, STATEFUL_NAMES)
  }

  function ExpectedDirect(run: RunIdentity): set<Key> {
    DIRECT_OBJECTS + Keyed(Job, JobNames(run))
  }

  function NonPods(keys: set<Key>): set<Key> {
    set k | k in keys && !k.0.Pod?
  }

  function UidsOf(objects: seq<ObjectRecord>): set<string> {
    set o | o in objects :: o.uid
  }

  predicate Completed(status: JobStatus) {
    status.succeeded == 1 && status.active == 0
  }

  predicate HeaderValid(run: RunIdentity, r: Receipt, lock: Lock) {
    && r.schemaVersion == 1
    && lock.complete && (forall i :: 0 <= i < |ROLES| ==> ROLES[i] in lock.images)
    && r.profile == run.Profile() && r.context == run.Profile() && r.namespace == run.Namespace()
    && r.clusterUid == lock.clusterUid
    && r.namespaceUid != "" && Carries(r.namespaceLabels, run.RunLabels())
  }

  /** No two records share a name, and no two identities a UID. */
  predicate InventoryDistinct(r: Receipt) {
    var uids := {r.clusterUid, r.namespaceUid} + UidsOf(r.objects);
    && |ByKey(r.objects)| == |r.objects|
    && "" !in uids
    && |uids| == |r.objects| + 2
  }

  predicate DirectComplete(run: RunIdentity, r: Receipt) {
    && NonPods(ByKey(r.objects).Keys) == ExpectedDirect(run)
    && r.jobStatus.Keys == JobNames(run)
    && forall name :: name in r.jobStatus ==> Completed(r.jobStatus[name])
  }

  // ----- objects and their owners -----

  function OwnerKey(pod: ObjectRecord): Key
    requires |pod.owners| == 1
  {
    (pod.owners[0].kind, pod.owners[0].name)
  }

  /** The Pod's one owner is its controller and a recorded direct object with that very UID. */
  predicate OwnerResolves(pod: ObjectRecord, keyed: map<Key, ObjectRecord>) {
    && |pod.owners| == 1
    && pod.owners[0].controller
    && !pod.owners[0].kind.Pod?
    && OwnerKey(pod) in keyed
    && keyed[OwnerKey(pod)].uid == pod.owners[0].uid
  }

  predicate ChildName(run: RunIdentity, pod: ObjectRecord)
    requires |pod.owners| == 1
  {
    var owner := pod.owners[0];
    match owner.kind
    case Job => owner.name in JobNames(run) && HasPrefix(pod.name, owner.name + "-")
    case StatefulSet => owner.name in STATEFUL_NAMES && pod.name == owner.name + "-0"
    case _ => false
  }

  predicate ObjectChecked(run: RunIdentity, o: ObjectRecord, keyed: map<Key, ObjectRecord>) {
    && o.namespace == run.Namespace()
    && Carries(o.labels, run.RunLabels())
    && LabelIs(o.labels, "it4931.instacart.edu/component", "pipeline")
    && (o.kind.Pod? ==> OwnerResolves(o, keyed) && ChildName(run, o))
  }

  /** The Pods of each owner, in receipt order. */
  function PodsByOwner(objects: seq<ObjectRecord>): map<Key, seq<ObjectRecord>> {
    if objects == [] then map[]
    else
      var earlier, last := PodsByOwner(objects[..|objects| - 1]), objects[|objects| - 1];
      if last.kind.Pod? && |last.owners| == 1
      then earlier[OwnerKey(last) := (if OwnerKey(last) in earlier then earlier[OwnerKey(last)] else []) + [last]]
      else earlier
  }

  method GroupPods(run: RunIdentity, objects: seq<ObjectRecord>, keyed: map<Key, ObjectRecord>)
    returns (ok: bool, podsByOwner: map<Key, seq<ObjectRecord>>)
    ensures ok <==> forall o :: o in objects ==> ObjectChecked(run, o, keyed)
    ensures ok ==> podsByOwner == PodsByOwner(objects)
  {
    hide ObjectChecked;
    podsByOwner := map[];
    for i := 0 to |objects|
      invariant forall j :: 0 <= j < i ==> ObjectChecked(run, objects[j], keyed)
      invariant podsByOwner == PodsByOwner(objects[..i])
    {
      var item := objects[i];
      PrefixStep(objects, i);
      if !ObjectChecked(run, item, keyed) {
        assert item in objects;
        return false, podsByOwner;
      }
      if item.kind.Pod? {
        CheckedPod(run, item, keyed);
        var key := OwnerKey(item);
        podsByOwner := podsByOwner[key := (if key in podsByOwner then podsByOwner[key] else []) + [item]];
      }
    }
    assert objects[..|objects|] == objects;
    ok := true;
  }

  lemma CheckedPod(run: RunIdentity, o: ObjectRecord, keyed: map<Key, ObjectRecord>)
    requires ObjectChecked(run, o, keyed) && o.kind.Pod?
    ensures |o.owners| == 1 && OwnerResolves(o, keyed) && ChildName(run, o)
  {
  }

  predicate OnePodEach(podsByOwner: map<Key, seq<ObjectRecord>>, owners: set<Key>) {
    podsByOwner.Keys == owners && forall k :: k in owners ==> |podsByOwner[k]| == 1
  }

  // ----- storage -----

  predicate StorageLocked(run: RunIdentity, st: Storage, keyed: map<Key, ObjectRecord>, lock: Lock) {
    var claim := (PersistentVolumeClaim, st.claimName);
    && st.claimName in CLAIMS && claim in keyed
    && st.requestedStorage == CLAIMS[st.claimName].0
    && st.claimUid == keyed[claim].uid
    && st.capacity >= CLAIMS[st.claimName].1
    && st.accessMode == "ReadWriteOnce"
    && st.claimRefNamespace == run.Namespace()
    && st.claimRefName == st.claimName
    && st.claimRefUid == st.claimUid
    && st.storageClassUid == lock.storageClassUid
    && st.provisioner == lock.provisioner
    && st.profileLocal
    && st.localityKind == "hostPath"
    && HasPrefix(st.localityPath, "/tmp/hostpath-provisioner/")
    && st.claimUid != "" && st.volumeUid != "" && st.storageClass != ""
    && st.storageClassUid != "" && st.nodeName != "" && st.nodeUid != ""
    && st.owners == []
  }

  predicate StorageValid(run: RunIdentity, storage: seq<Storage>, keyed: map<Key, ObjectRecord>, lock: Lock) {
    && (set st | st in storage :: st.claimName) == CLAIMS.Keys
    && |set st | st in storage :: st.volumeUid| == |storage|
    && |set st | st in storage :: st.volumeName| == |storage|
    && forall st :: st in storage ==> StorageLocked(run, st, keyed, lock)
  }

  // ----- images -----

  function OfRole(images: seq<Image>, role: Role): seq<Image> {
    if images == [] then []
    else
      var last := images[|images| - 1];
      OfRole(images[..|images| - 1], role) + if last.role == role then [last] else []
  }

  function RoleWorkload(role: Role): Option<string> {
    match role
    case Kafka => Some("kafka")
    case HdfsNameNode => Some("hdfs-namenode")
    case HdfsDataNode => Some("hdfs-datanode")
    case _ => None
  }

  /** The image record names the workload that controls the Pod, and that workload runs the record's role. */
  predicate RunsIn(run: RunIdentity, image: Image, pod: ObjectRecord) {
    && pod.kind.Pod? && pod.uid == image.podUid && |pod.owners| == 1
    && image.workload == pod.owners[0].name
    && if image.role.PipelineApplication?
       then pod.owners[0].kind.Job? && image.workload in JobNames(run)
       else pod.owners[0].kind.StatefulSet? && RoleWorkload(image.role) == Some(image.workload)
  }

  predicate RuntimeIdentityVerified(image: Image) {
    && image.runtimeImageId != "" && '@' in image.declaredReference
    && DigestPart(image.declaredReference) == image.digest
    && (Contains(image.runtimeImageId, "@" + image.digest)
        || HasSuffix(StripTrailing(image.runtimeImageId, '/'), image.configDigest))
  }

  function PodsRunning(run: RunIdentity, image: Image, objs: set<ObjectRecord>): set<ObjectRecord> {
    set pod | pod in objs && RunsIn(run, image, pod)
  }

  predicate ImageBound(run: RunIdentity, image: Image, objs: set<ObjectRecord>, locked: LockedImage) {
    && image.declaredReference == locked.reference && image.digest == locked.digest
    && PodsRunning(run, image, objs) != {}
    && RuntimeIdentityVerified(image)
  }

  function WorkloadsOf(images: seq<Image>): set<string> {
    set image | image in images :: image.workload
  }

  predicate EnoughRecords(role: Role, matches: seq<Image>) {
    && matches != []
    && (!role.PipelineApplication? ==> |matches| == 1)
    && (role.PipelineApplication? ==> |WorkloadsOf(matches)| >= |STEPS|)
  }

  ghost predicate RoleCovered(run: RunIdentity, images: seq<Image>, role: Role, objs: set<ObjectRecord>, lock: Lock)
    requires role in lock.images
  {
    && EnoughRecords(role, OfRole(images, role))
    && forall image :: image in OfRole(images, role) ==> ImageBound(run, image, objs, lock.images[role])
  }

  method CheckRole(run: RunIdentity, images: seq<Image>, role: Role, objs: set<ObjectRecord>, lock: Lock) returns (ok: bool)
    requires role in lock.images
    ensures ok <==> RoleCovered(run, images, role, objs, lock)
  {
    hide ImageBound;
    hide EnoughRecords;
    var matches := OfRole(images, role);
    if !EnoughRecords(role, matches) {
      return false;
    }
    for i := 0 to |matches|
      invariant forall j :: 0 <= j < i ==> ImageBound(run, matches[j], objs, lock.images[role])
    {
      if !ImageBound(run, matches[i], objs, lock.images[role]) {
        assert matches[i] in matches;
        return false;
      }
    }
    ok := true;
  }

  method CheckImages(run: RunIdentity, images: seq<Image>, objs: set<ObjectRecord>, lock: Lock) returns (ok: bool)
    requires forall i :: 0 <= i < |ROLES| ==> ROLES[i] in lock.images
    ensures ok <==> forall i :: 0 <= i < |ROLES| ==> RoleCovered(run, images, ROLES[i], objs, lock)
  {
    hide RoleCovered;
    for i := 0 to |ROLES|
      invariant forall j :: 0 <= j < i ==> RoleCovered(run, images, ROLES[j], objs, lock)
    {
      var covered := CheckRole(run, images, ROLES[i], objs, lock);
      if !covered {
        return false;
      }
    }
    ok := true;
  }

  // ----- the verdict -----

  ghost predicate Accepts(run: RunIdentity, r: Receipt, lock: Lock) {
    && HeaderValid(run, r, lock)
    && InventoryDistinct(r)
    && DirectComplete(run, r)
    && (forall o :: o in r.objects ==> ObjectChecked(run, o, ByKey(r.objects)))
    && OnePodEach(PodsByOwner(r.objects), Workloads(run))
    && StorageValid(run, r.storage, ByKey(r.objects), lock)
    && forall i :: 0 <= i < |ROLES| ==> RoleCovered(run, r.images, ROLES[i], Elements(r.objects), lock)
  }

  method ValidatePipelineReceipt(run: RunIdentity, r: Receipt, lock: Lock) returns (v: Verdict)
    ensures v.Accepted? <==> Accepts(run, r, lock)
  {
    hide InventoryDistinct;
    hide DirectComplete;
    hide ObjectChecked;
    hide OnePodEach;
    hide StorageValid;
    hide RoleCovered;
    if !HeaderValid(run, r, lock) {
      return Refused("schema, lock, run identity or namespace does not match");
    }
    if !InventoryDistinct(r) {
      return Refused("receipt contains duplicate objects or UIDs");
    }
    if !DirectComplete(run, r) {
      return Refused("direct-resource or completed-Job receipt is incomplete");
    }
    var keyed := ByKey(r.objects);
    var ok, podsByOwner := GroupPods(run, r.objects, keyed);
    if !ok {
      return Refused("an object does not match the run or its owner");
    }
    if !OnePodEach(podsByOwner, Workloads(run)) {
      return Refused("child Pods are not exactly one for each Job and StatefulSet");
    }
    if !StorageValid(run, r.storage, keyed, lock) {
      return Refused("storage identity does not match the lock");
    }
    ok := CheckImages(run, r.images, Elements(r.objects), lock);
    if !ok {
      return Refused("an image record does not match the lock or its owner");
    }
    v := Accepted;
  }

  method AssertPipelineReceiptMatchesLive(run: RunIdentity, recorded: Receipt, live: Receipt, lock: Lock)
    returns (v: Verdict)
    ensures v.Accepted? <==> Accepts(run, recorded, lock) && recorded == live
  {
    hide Accepts;
    v := ValidatePipelineReceipt(run, recorded, lock);
    if v.Accepted? {
      v := ValidatePipelineReceipt(run, live, lock);
      if v.Accepted? && recorded != live {
        v := Refused("live B3 resources or storage differ from the recorded receipt");
      }
    }
  }

  // ----- what acceptance means -----

  ghost predicate PodOf(o: ObjectRecord, workload: Key) {
    o.kind.Pod? && |o.owners| == 1 && OwnerKey(o) == workload
  }

  lemma {:induction false} PodsByOwnerHolds(objects: seq<ObjectRecord>)
    ensures forall k, o :: k in PodsByOwner(objects) && o in PodsByOwner(objects)[k] ==> o in objects && PodOf(o, k)
    ensures forall k, o :: o in objects && PodOf(o, k) ==> k in PodsByOwner(objects) && o in PodsByOwner(objects)[k]
  {
    if objects != [] {
      var earlier, last := objects[..|objects| - 1], objects[|objects| - 1];
      PodsByOwnerHolds(earlier);
      assert objects == earlier + [last];
    }
  }

  /** The one Pod of each workload, and one workload for each Pod. */
  ghost predicate PodsMatchWorkloads(objs: set<ObjectRecord>, workloads: set<Key>) {
    && (forall w :: w in workloads ==>
          exists o :: o in objs && PodOf(o, w) && forall q :: q in objs && PodOf(q, w) ==> q == o)
    && (forall o :: o in objs && o.kind.Pod? ==> |o.owners| == 1 && OwnerKey(o) in workloads)
  }

  lemma OnlyPod(objects: seq<ObjectRecord>, w: Key) returns (pod: ObjectRecord)
    requires w in PodsByOwner(objects) && |PodsByOwner(objects)[w]| == 1
    ensures pod in objects && PodOf(pod, w)
    ensures forall q :: q in objects && PodOf(q, w) ==> q == pod
  {
    PodsByOwnerHolds(objects);
    pod := PodsByOwner(objects)[w][0];
    assert pod in PodsByOwner(objects)[w];
  }

  lemma GroupedPods(objects: seq<ObjectRecord>, workloads: set<Key>)
    requires OnePodEach(PodsByOwner(objects), workloads)
    requires forall o :: o in objects && o.kind.Pod? ==> |o.owners| == 1
    ensures PodsMatchWorkloads(Elements(objects), workloads)
  {
    hide PodsByOwner;
    forall w | w in workloads
      ensures exists o :: o in Elements(objects) && PodOf(o, w) && forall q :: q in Elements(objects) && PodOf(q, w) ==> q == o
    {
      var pod := OnlyPod(objects, w);
      assert pod in Elements(objects);
    }
    PodsByOwnerHolds(objects);
    forall o | o in Elements(objects) && o.kind.Pod? ensures OwnerKey(o) in workloads {
      assert PodOf(o, OwnerKey(o));
    }
  }

  ghost function FirstOwner(o: ObjectRecord): Key {
    if |o.owners| == 1 then OwnerKey(o) else (Pod, "")
  }

  lemma PodCount(objs: set<ObjectRecord>, workloads: set<Key>)
    requires PodsMatchWorkloads(objs, workloads)
    ensures |set o | o in objs && o.kind.Pod?| == |workloads|
  {
    var pods := set o | o in objs && o.kind.Pod?;
    forall o | o in pods ensures PodOf(o, FirstOwner(o)) && FirstOwner(o) in workloads {
    }
    ImageSize(pods, FirstOwner);
    forall w | w in workloads ensures w in ImageOf(pods, FirstOwner) {
      var o :| o in objs && PodOf(o, w);
      assert o in pods && FirstOwner(o) == w;
    }
    assert ImageOf(pods, FirstOwner) == workloads;
  }

  lemma JobNameInjective(a: string, b: string, runId: string)
    requires JobName(a, runId) == JobName(b, runId)
    ensures a == b
  {
    assert JobName(a, runId)[7..7 + |a|] == a;
    assert JobName(b, runId)[7..7 + |b|] == b;
  }

  lemma StepsDiffer()
    ensures Distinct(STEPS)
  {
    assert |STEPS[0]| == 5 && STEPS[1][6] == '1' && STEPS[2][6] == '2' && STEPS[3][6] == '4';
    assert STEPS[4][0] == 'r' && STEPS[5][0] == 'h' && |STEPS[4]| == |STEPS[5]| == 6;
  }

  lemma SixJobs(run: RunIdentity)
    ensures |JobNames(run)| == 6
  {
    StepsDiffer();
    DistinctSize(STEPS);
    var name := (step: string) => JobName(step, run.runId);
    forall a, b | a in Elements(STEPS) && b in Elements(STEPS) && name(a) == name(b) ensures a == b {
      JobNameInjective(a, b, run.runId);
    }
    ImageSize(Elements(STEPS), name);
    forall n ensures n in ImageOf(Elements(STEPS), name) <==> n in JobNames(run) {
      if n in JobNames(run) {
        var step :| step in STEPS && n == JobName(step, run.runId);
        assert step in Elements(STEPS) && name(step) == n;
      }
    }
    assert ImageOf(Elements(STEPS), name) == JobNames(run);
    assert |Elements(STEPS)| == 6;
  }

  lemma NineWorkloads(run: RunIdentity)
    ensures |Workloads(run)| == 9
  {
    hide JobNames;
    SixJobs(run);
    StatefulNames();
    var job, service := (n: string) => (Job, n), (n: string) => (StatefulSet, n);
    ImageSize(JobNames(run), job);
    ImageSize(STATEFUL_NAMES, service);
    var jobs, services := ImageOf(JobNames(run), job), ImageOf(STATEFUL_NAMES, service);
    assert Workloads(run) == jobs + services;
    assert jobs !! services;
    assert |jobs + services| == |jobs| + |services|;
  }

  lemma StatefulNames()
    ensures |STATEFUL_NAMES| == 3
  {
    assert "hdfs-namenode"[5] == 'n' && "hdfs-datanode"[5] == 'd' && |"kafka"| == 5;
  }

  /** Nine Pods, in one-to-one correspondence with the six Jobs and the three StatefulSets. */
  lemma PodsBijectWithWorkloads(run: RunIdentity, r: Receipt, lock: Lock)
    requires Accepts(run, r, lock)
    ensures PodsMatchWorkloads(Elements(r.objects), Workloads(run))
    ensures |set o | o in Elements(r.objects) && o.kind.Pod?| == 9
  {
    hide HeaderValid;
    hide InventoryDistinct;
    hide DirectComplete;
    hide OnePodEach;
    hide StorageValid;
    hide RoleCovered;
    hide Workloads;
    GroupedPods(r.objects, Workloads(run));
    PodCount(Elements(r.objects), Workloads(run));
    NineWorkloads(run);
  }

  // ----- image coverage -----

  lemma {:induction false} OfRoleHolds(images: seq<Image>, role: Role)
    ensures forall m :: m in OfRole(images, role) <==> m in images && m.role == role
  {
    if images != [] {
      var earlier, last := images[..|images| - 1], images[|images| - 1];
      OfRoleHolds(earlier, role);
      assert images == earlier + [last];
    }
  }

  ghost function RoleOf(workload: Key): Role {
    if workload.0.Job? then PipelineApplication
    else if workload.1 == "kafka" then Kafka
    else if workload.1 == "hdfs-namenode" then HdfsNameNode
    else HdfsDataNode
  }

  /** The record proves that this Pod runs the locked image of its role. */
  ghost predicate Proves(image: Image, pod: ObjectRecord, role: Role, lock: Lock)
    requires role in lock.images
  {
    && image.role == role && image.podUid == pod.uid
    && image.declaredReference == lock.images[role].reference
    && image.digest == lock.images[role].digest
    && RuntimeIdentityVerified(image)
  }

  lemma BoundImageProves(run: RunIdentity, image: Image, objs: set<ObjectRecord>, lock: Lock, workloads: set<Key>, pod: ObjectRecord, w: Key)
    requires image.role in lock.images && ImageBound(run, image, objs, lock.images[image.role])
    requires PodsMatchWorkloads(objs, workloads) && w in workloads && pod in objs && PodOf(pod, w)
    requires image.workload == w.1 && w.0 == if image.role.PipelineApplication? then Job else StatefulSet
    ensures Proves(image, pod, image.role, lock)
  {
    hide RuntimeIdentityVerified;
    hide RoleWorkload;
    hide JobNames;
    var actual := Inhabitant(PodsRunning(run, image, objs));
    assert PodOf(actual, w);
  }

  lemma BoundWorkload(run: RunIdentity, image: Image, objs: set<ObjectRecord>, locked: LockedImage)
    requires ImageBound(run, image, objs, locked)
    ensures image.role.PipelineApplication? ==> image.workload in JobNames(run)
    ensures !image.role.PipelineApplication? ==> RoleWorkload(image.role) == Some(image.workload)
  {
    hide RuntimeIdentityVerified;
    hide RoleWorkload;
    hide JobNames;
    var actual := Inhabitant(PodsRunning(run, image, objs));
  }

  /** Pigeonhole: at least six workloads, all among the six Jobs, so every Job has a record. */
  lemma EveryJobRecorded(run: RunIdentity, images: seq<Image>, objs: set<ObjectRecord>, lock: Lock, name: string)
    requires PipelineApplication in lock.images && RoleCovered(run, images, PipelineApplication, objs, lock)
    requires name in JobNames(run)
    ensures exists m :: m in images && m.role.PipelineApplication? && m.workload == name
              && ImageBound(run, m, objs, lock.images[PipelineApplication])
  {
    hide ImageBound;
    hide JobNames;
    var matches := OfRole(images, PipelineApplication);
    OfRoleHolds(images, PipelineApplication);
    forall m | m in matches ensures m.workload in JobNames(run) {
      BoundWorkload(run, m, objs, lock.images[PipelineApplication]);
    }
    SixJobs(run);
    SameSizeSubset(WorkloadsOf(matches), JobNames(run));
    assert name in WorkloadsOf(matches);
    var m :| m in matches && m.workload == name;
  }

  lemma ServiceRecorded(run: RunIdentity, images: seq<Image>, role: Role, objs: set<ObjectRecord>, lock: Lock)
    returns (m: Image)
    requires role in lock.images && !role.PipelineApplication? && RoleCovered(run, images, role, objs, lock)
    ensures m in images && m.role == role && ImageBound(run, m, objs, lock.images[role])
    ensures RoleWorkload(role) == Some(m.workload)
    ensures forall n :: n in images && n.role == role ==> n == m
  {
    hide ImageBound;
    OfRoleHolds(images, role);
    m := OfRole(images, role)[0];
    assert m in OfRole(images, role);
    BoundWorkload(run, m, objs, lock.images[role]);
  }

  lemma WorkloadRecorded(run: RunIdentity, images: seq<Image>, objs: set<ObjectRecord>, lock: Lock, w: Key, pod: ObjectRecord)
    requires forall i :: 0 <= i < |ROLES| ==> ROLES[i] in lock.images && RoleCovered(run, images, ROLES[i], objs, lock)
    requires PodsMatchWorkloads(objs, Workloads(run)) && w in Workloads(run) && pod in objs && PodOf(pod, w)
    ensures RoleOf(w) in lock.images
    ensures exists m :: m in images && Proves(m, pod, RoleOf(w), lock)
              && (w.0.StatefulSet? ==> forall n :: n in images && n.role == RoleOf(w) ==> n == m)
  {
    hide JobNames;
    hide RoleCovered;
    hide ImageBound;
    hide Proves;
    assert ROLES[0] == Kafka && ROLES[1] == HdfsNameNode && ROLES[2] == HdfsDataNode && ROLES[3] == PipelineApplication;
    if w.0.Job? {
      EveryJobRecorded(run, images, objs, lock, w.1);
      var m :| m in images && m.role.PipelineApplication? && m.workload == w.1
               && ImageBound(run, m, objs, lock.images[PipelineApplication]);
      BoundImageProves(run, m, objs, lock, Workloads(run), pod, w);
    } else {
      assert w.1 in STATEFUL_NAMES;
      var m := ServiceRecorded(run, images, RoleOf(w), objs, lock);
      assert RoleWorkload(RoleOf(w)) == Some(w.1);
      BoundImageProves(run, m, objs, lock, Workloads(run), pod, w);
    }
  }

  /** Every Pod has a record with the locked reference and digest; a StatefulSet Pod exactly one of its role. */
  lemma EveryPodImageLocked(run: RunIdentity, r: Receipt, lock: Lock, pod: ObjectRecord)
    requires Accepts(run, r, lock) && pod in r.objects && pod.kind.Pod?
    ensures |pod.owners| == 1 && OwnerKey(pod) in Workloads(run) && RoleOf(OwnerKey(pod)) in lock.images
    ensures exists m :: m in r.images && Proves(m, pod, RoleOf(OwnerKey(pod)), lock)
              && (OwnerKey(pod).0.StatefulSet? ==> forall n :: n in r.images && n.role == RoleOf(OwnerKey(pod)) ==> n == m)
  {
    hide InventoryDistinct;
    hide DirectComplete;
    hide ObjectChecked;
    hide StorageValid;
    hide RoleCovered;
    hide Workloads;
    hide Proves;
    hide OnePodEach;
    PodsBijectWithWorkloads(run, r, lock);
    assert PodOf(pod, OwnerKey(pod));
    WorkloadRecorded(run, r.images, Elements(r.objects), lock, OwnerKey(pod), pod);
  }
}
