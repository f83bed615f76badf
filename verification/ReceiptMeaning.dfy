/**
 What an accepted B2 or B3 receipt says, field by field: target, objects, owners, Jobs, storage and images
 (scripts/k8s/ownership.py, scripts/k8s/pipeline_receipts.py).
 */
module ReceiptMeaning {
  import opened Wrappers
  import opened Collections
  import opened Ownership
  import B2 = ServingReceipt
  import B3 = PipelineReceipt

  // ----- the serving receipt -----

  /** The profile, the context and the namespace are the run's, and the namespace carries its labels. */
  lemma ServingTarget(run: RunIdentity, r: B2.Receipt, exp: B2.Expectation)
    requires B2.Accepts(run, r, exp)
    ensures r.profile == r.context == r.namespace == "it4931-k8s-" + run.runId
    ensures NotBlank(r.clusterUid) && NotBlank(r.namespaceUid) && OfRun(r.namespaceLabels, run.runId)
  {
    hide B2.ObjectsAdmissible, B2.ChildrenBound, B2.StorageContract, B2.ImagesAdmissible, B2.ClusterImagesLocked, B2.DIRECT_INVENTORY,
         NotBlank, Carries, OfRun;
    CarriesRunLabels(run, r.namespaceLabels);
  }

  /** Every object is named, identified, in the run namespace and labelled; names and UIDs never repeat. */
  lemma ServingObjects(run: RunIdentity, r: B2.Receipt, exp: B2.Expectation)
    requires B2.Accepts(run, r, exp)
    ensures forall o :: o in r.objects ==>
              && NotBlank(o.name) && NotBlank(o.uid) && (o.kind.OtherKind? ==> NotBlank(o.kind.name))
              && o.namespace == "it4931-k8s-" + run.runId && OfRun(o.labels, run.runId)
              && o.uid != r.clusterUid && o.uid != r.namespaceUid
    ensures forall i, j :: 0 <= i < j < |r.objects| ==>
              && r.objects[i].uid != r.objects[j].uid
              && (r.objects[i].kind != r.objects[j].kind || r.objects[i].name != r.objects[j].name)
  {
    hide B2.ChildrenBound, B2.StorageContract, B2.ImagesAdmissible, B2.ClusterImagesLocked, B2.DIRECT_INVENTORY, B2.TargetsRun,
         B2.ObjectsAdmissible, NotBlank, Carries, OfRun;
    var reserved := {r.clusterUid, r.namespaceUid};
    B2.AdmissibleObjects(run, reserved, r.objects);
    forall o | o in r.objects ensures OfRun(o.labels, run.runId) && o.uid != r.clusterUid && o.uid != r.namespaceUid {
      CarriesRunLabels(run, o.labels);
      assert o.uid !in reserved;
    }
  }

  /** The names that B2 declares, by kind. */
  predicate ServingName(k: Key) {
    match k.0
    case StatefulSet => k.1 == "module4d-mongo"
    case Deployment => k.1 in {"module4d-api", "module4d-ui"}
    case PersistentVolumeClaim => k.1 == "data-module4d-mongo-0"
    case Service => k.1 in {"module4d-mongo-headless", "module4d-mongo", "module4d-api", "module4d-ui"}
    case ResourceQuota => k.1 == "it4931-quota"
    case LimitRange => k.1 == "it4931-limits"
    case ServiceAccount => k.1 in {"module4d-mongo", "module4d-api", "module4d-ui"}
    case ConfigMap => k.1 in {"module4d-api-config", "module4d-ui-config", "module4d-mongo-bootstrap"}
    case NetworkPolicy => k.1 in {"default-deny", "allow-dns-egress", "allow-api-to-mongo", "allow-ui-to-api", "allow-api-egress", "allow-ui-egress"}
    case Secret => k.1 in {"module4d-mongo-admin", "module4d-mongo-accounts", "module4d-api-readonly", "module4d-mongo-publisher"}
    case _ => false
  }

  lemma ServingNames(k: Key)
    ensures k in B2.WORKLOADS + B2.SETTINGS ==> ServingName(k)
    ensures k in B2.POLICIES + B2.SECRETS ==> ServingName(k)
    ensures ServingName(k) ==> k in B2.WORKLOADS + B2.SETTINGS || k in B2.POLICIES + B2.SECRETS
  {
  }

  /** The recorded objects other than Pods and ReplicaSets are exactly the declared ones. */
  lemma ServingInventory(run: RunIdentity, r: B2.Receipt, exp: B2.Expectation, k: Key)
    requires B2.Accepts(run, r, exp) && !k.0.Pod? && !k.0.ReplicaSet?
    ensures ServingName(k) <==> exists o :: o in r.objects && o.kind == k.0 && o.name == k.1
  {
    hide B2.ChildrenBound, B2.StorageContract, B2.ImagesAdmissible, B2.ClusterImagesLocked, B2.TargetsRun, B2.ObjectsAdmissible,
         B2.WORKLOADS, B2.SETTINGS, B2.POLICIES, B2.SECRETS, ServingName;
    ServingNames(k);
    ByKeyHolds(r.objects);
    var keyed := ByKey(r.objects);
    assert k in B2.DirectKeys(keyed.Keys) <==> k in keyed;
    if o :| o in r.objects && o.kind == k.0 && o.name == k.1 {
      assert o.Key() == k;
    }
  }

  /** The one owner of an object is this record, as its controller. */
  predicate SoleController(o: ObjectRecord, parent: ObjectRecord) {
    && |o.owners| == 1 && o.owners[0].kind == parent.kind && o.owners[0].name == parent.name
    && o.owners[0].uid == parent.uid && o.owners[0].controller
  }

  /** A Deployment with its only ReplicaSet and that one's only Pod. */
  ghost predicate DeploymentChain(objects: seq<ObjectRecord>, name: string, replicas: ObjectRecord, pod: ObjectRecord) {
    && replicas in objects && replicas.kind.ReplicaSet? && HasPrefix(replicas.name, name + "-")
    && pod in objects && pod.kind.Pod? && HasPrefix(pod.name, name + "-") && SoleController(pod, replicas)
    && exists root :: root in objects && root.kind.Deployment? && root.name == name && SoleController(replicas, root)
  }

  /** The Mongo Pod of its StatefulSet. */
  ghost predicate MongoChain(objects: seq<ObjectRecord>, pod: ObjectRecord) {
    && pod in objects && pod.kind.Pod? && pod.name == "module4d-mongo-0"
    && exists root :: root in objects && root.kind.StatefulSet? && root.name == "module4d-mongo" && SoleController(pod, root)
  }

  lemma PatternChild(objects: seq<ObjectRecord>, p: B2.ChildPattern) returns (child: ObjectRecord, parent: ObjectRecord)
    requires B2.ChildBound(Elements(objects), p)
    ensures child in objects && child.kind == p.kind && B2.NameMatches(child.name, p.name)
    ensures parent in objects && parent.kind == p.ownerKind && B2.NameMatches(parent.name, p.ownerName) && SoleController(child, parent)
    ensures forall o :: o in objects && o.kind == p.kind && B2.NameMatches(o.name, p.name) ==> o == child
    ensures forall o :: o in objects && o.kind == p.ownerKind && B2.NameMatches(o.name, p.ownerName) ==> o == parent
  {
    hide B2.NameMatches;
    var objs := Elements(objects);
    var children, parents := B2.Matching(objs, p.kind, p.name), B2.Matching(objs, p.ownerKind, p.ownerName);
    child := Inhabitant(children);
    parent := Inhabitant(parents);
    Singleton(children, child);
    Singleton(parents, parent);
    assert child.ControlledBy(parent);
    forall o | o in objects && o.kind == p.kind && B2.NameMatches(o.name, p.name) ensures o == child {
      assert o in children;
    }
    forall o | o in objects && o.kind == p.ownerKind && B2.NameMatches(o.name, p.ownerName) ensures o == parent {
      assert o in parents;
    }
  }

  lemma PatternNames(name: string)
    ensures B2.NameMatches(name, "module4d-mongo-0") <==> name == "module4d-mongo-0"
    ensures B2.NameMatches(name, "module4d-mongo") <==> name == "module4d-mongo"
    ensures B2.NameMatches(name, "module4d-api") <==> name == "module4d-api"
    ensures B2.NameMatches(name, "module4d-ui") <==> name == "module4d-ui"
    ensures B2.NameMatches(name, "module4d-api-") <==> HasPrefix(name, "module4d-api" + "-")
    ensures B2.NameMatches(name, "module4d-ui-") <==> HasPrefix(name, "module4d-ui" + "-")
  {
    assert "module4d-api" + "-" == "module4d-api-" && "module4d-ui" + "-" == "module4d-ui-";
  }

  lemma FivePatterns()
    ensures |B2.CHILDREN| == 5
    ensures B2.CHILDREN[0] == B2.ChildPattern(Pod, "module4d-mongo-0", StatefulSet, "module4d-mongo")
    ensures B2.CHILDREN[1] == B2.ChildPattern(ReplicaSet, "module4d-api-", Deployment, "module4d-api")
    ensures B2.CHILDREN[2] == B2.ChildPattern(Pod, "module4d-api-", ReplicaSet, "module4d-api-")
    ensures B2.CHILDREN[3] == B2.ChildPattern(ReplicaSet, "module4d-ui-", Deployment, "module4d-ui")
    ensures B2.CHILDREN[4] == B2.ChildPattern(Pod, "module4d-ui-", ReplicaSet, "module4d-ui-")
  {
  }

  lemma DeploymentChildren(objects: seq<ObjectRecord>, name: string) returns (replicas: ObjectRecord, pod: ObjectRecord)
    requires name == "module4d-api" || name == "module4d-ui"
    requires B2.ChildBound(Elements(objects), B2.ChildPattern(ReplicaSet, name + "-", Deployment, name))
    requires B2.ChildBound(Elements(objects), B2.ChildPattern(Pod, name + "-", ReplicaSet, name + "-"))
    ensures DeploymentChain(objects, name, replicas, pod)
    ensures forall o :: o in objects && o.kind.ReplicaSet? && B2.NameMatches(o.name, name + "-") ==> o == replicas
    ensures forall o :: o in objects && o.kind.Pod? && B2.NameMatches(o.name, name + "-") ==> o == pod
  {
    hide B2.ChildBound, SoleController;
    var root, parent;
    replicas, root := PatternChild(objects, B2.ChildPattern(ReplicaSet, name + "-", Deployment, name));
    pod, parent := PatternChild(objects, B2.ChildPattern(Pod, name + "-", ReplicaSet, name + "-"));
    PatternNames(root.name);
    PatternNames(replicas.name);
    PatternNames(pod.name);
    assert "module4d-api" + "-" == "module4d-api-" && "module4d-ui" + "-" == "module4d-ui-";
    hide B2.NameMatches, HasPrefix;
    assert parent == replicas && root.name == name;
  }

  lemma MongoChild(objects: seq<ObjectRecord>) returns (pod: ObjectRecord)
    requires B2.ChildBound(Elements(objects), B2.ChildPattern(Pod, "module4d-mongo-0", StatefulSet, "module4d-mongo"))
    ensures MongoChain(objects, pod)
    ensures forall o :: o in objects && o.kind.Pod? && B2.NameMatches(o.name, "module4d-mongo-0") ==> o == pod
  {
    hide B2.ChildBound, SoleController, B2.NameMatches;
    var root;
    pod, root := PatternChild(objects, B2.ChildPattern(Pod, "module4d-mongo-0", StatefulSet, "module4d-mongo"));
    PatternNames(pod.name);
    PatternNames(root.name);
  }

  /** The Pods and ReplicaSets are exactly the Mongo Pod and one chain for each of the two Deployments. */
  lemma ServingChildren(run: RunIdentity, r: B2.Receipt, exp: B2.Expectation)
    returns (mongo: ObjectRecord, apiSet: ObjectRecord, api: ObjectRecord, uiSet: ObjectRecord, ui: ObjectRecord)
    requires B2.Accepts(run, r, exp)
    ensures MongoChain(r.objects, mongo)
    ensures DeploymentChain(r.objects, "module4d-api", apiSet, api) && DeploymentChain(r.objects, "module4d-ui", uiSet, ui)
    ensures forall o :: o in r.objects && (o.kind.Pod? || o.kind.ReplicaSet?) ==> o in {mongo, apiSet, api, uiSet, ui}
  {
    hide *;
    var objs, p := Elements(r.objects), B2.CHILDREN;
    AcceptedChildren(run, r, exp);
    FivePatterns();
    PatternsBound(objs, p);
    assert B2.ChildBound(objs, p[0]) && B2.ChildBound(objs, p[1]) && B2.ChildBound(objs, p[2])
           && B2.ChildBound(objs, p[3]) && B2.ChildBound(objs, p[4]);
    assert "module4d-api" + "-" == "module4d-api-" && "module4d-ui" + "-" == "module4d-ui-";
    mongo := MongoChild(r.objects);
    apiSet, api := DeploymentChildren(r.objects, "module4d-api");
    uiSet, ui := DeploymentChildren(r.objects, "module4d-ui");
    forall o | o in r.objects && (o.kind.Pod? || o.kind.ReplicaSet?) ensures o in {mongo, apiSet, api, uiSet, ui} {
      var i := PatternOf(r.objects, p, o);
    }
  }

  lemma AcceptedChildren(run: RunIdentity, r: B2.Receipt, exp: B2.Expectation)
    requires B2.Accepts(run, r, exp)
    ensures B2.ChildrenBound(Elements(r.objects), B2.CHILDREN)
  {
    hide B2.DirectKeys, B2.StorageContract, B2.ImagesAdmissible, B2.ClusterImagesLocked, B2.TargetsRun, B2.ObjectsAdmissible,
         B2.DIRECT_INVENTORY, B2.ChildrenBound, B2.CHILDREN;
  }

  lemma PatternsBound(objs: set<ObjectRecord>, patterns: seq<B2.ChildPattern>)
    requires B2.ChildrenBound(objs, patterns)
    ensures forall i :: 0 <= i < |patterns| ==> B2.ChildBound(objs, patterns[i])
  {
  }

  lemma PatternOf(objects: seq<ObjectRecord>, patterns: seq<B2.ChildPattern>, o: ObjectRecord) returns (i: nat)
    requires B2.ChildrenBound(Elements(objects), patterns) && o in objects && (o.kind.Pod? || o.kind.ReplicaSet?)
    ensures i < |patterns| && o.kind == patterns[i].kind && B2.NameMatches(o.name, patterns[i].name)
  {
    hide B2.ChildBound, B2.NameMatches;
    assert o in Elements(objects) && B2.Dynamic(o.kind);
    i :| 0 <= i < |patterns| && B2.Fits(o, patterns[i]);
  }

  /**
   The claim, its volume and its owner: two GiB, read-write-once, retained, on the locked StorageClass and a
   path of the profile's own host.
   */
  lemma ServingStorage(run: RunIdentity, r: B2.Receipt, exp: B2.Expectation)
    requires B2.Accepts(run, r, exp)
    ensures var st := r.storage;
            && st.claimName == st.pvClaimName == "data-module4d-mongo-0" && st.claimTemplateName == "data"
            && st.pvClaimNamespace == "it4931-k8s-" + run.runId && st.claimUid == st.pvClaimUid
            && st.requestedStorage == st.capacity == "2Gi" && st.accessMode == "ReadWriteOnce"
            && st.retentionWhenDeleted == st.retentionWhenScaled == "Retain"
            && st.storageClass == exp.storageClass && st.provisioner == exp.provisioner
            && st.profileLocal && st.localityKind == "hostPath" && HasPrefix(st.localityPath, "/tmp/hostpath-provisioner/")
    ensures var st := r.storage;
            && NotBlank(st.volumeName) && NotBlank(st.volumeUid) && NotBlank(st.storageClassUid)
            && NotBlank(st.localityNodeName) && NotBlank(st.localityNodeUid)
            && st.volumeUid != st.storageClassUid && st.volumeUid != st.localityNodeUid && st.storageClassUid != st.localityNodeUid
            && st.volumeUid !in {r.clusterUid, r.namespaceUid} && st.storageClassUid !in {r.clusterUid, r.namespaceUid}
            && st.localityNodeUid !in {r.clusterUid, r.namespaceUid}
            && forall o :: o in r.objects ==> o.uid !in {st.volumeUid, st.storageClassUid, st.localityNodeUid}
    ensures exists claim, owner :: claim in r.objects && owner in r.objects && ClaimOfStatefulSet(r.storage, claim, owner)
  {
    hide B2.DirectKeys, B2.ImagesAdmissible, B2.ClusterImagesLocked, B2.TargetsRun, B2.ObjectsAdmissible, B2.DIRECT_INVENTORY,
         B2.ChildrenBound, NotBlank, HasPrefix;
    var st, keyed := r.storage, ByKey(r.objects);
    var uids := {st.volumeUid, st.storageClassUid, st.localityNodeUid};
    ThreeDiffer(st.volumeUid, st.storageClassUid, st.localityNodeUid);
    B2.UidsOfHolds(r.objects);
    ByKeyHolds(r.objects);
    var claim, owner := keyed[(PersistentVolumeClaim, st.claimName)], keyed[(StatefulSet, "module4d-mongo")];
    assert claim.Key() == (PersistentVolumeClaim, st.claimName) && owner.Key() == (StatefulSet, "module4d-mongo");
    assert ClaimOfStatefulSet(st, claim, owner);
  }

  lemma ThreeDiffer(a: string, b: string, c: string)
    ensures |{a, b, c}| == 3 <==> a != b && a != c && b != c
  {
    if a == b {
      assert {a, b, c} == {a, c};
    } else if a == c || b == c {
      assert {a, b, c} == {a, b};
    }
  }

  /** The recorded claim of the database, which the StatefulSet controls if anything does. */
  predicate ClaimOfStatefulSet(st: B2.Storage, claim: ObjectRecord, owner: ObjectRecord) {
    && claim.kind.PersistentVolumeClaim? && claim.name == st.claimName && claim.uid == st.claimUid
    && owner.kind.StatefulSet? && owner.name == "module4d-mongo" && owner.uid == st.claimOwnerUid
    && (claim.owners == [] || SoleController(claim, owner))
    && LabelIs(claim.labels, "app.kubernetes.io/name", "module4d-mongo")
    && LabelIs(claim.labels, "app.kubernetes.io/component", "database")
  }

  /** The claim check accepts exactly the recorded claim, unowned or controlled by the StatefulSet, on both sides of its volume. */
  lemma ClaimExactly(run: RunIdentity, st: B2.Storage, claim: ObjectRecord, owner: ObjectRecord)
    requires claim.kind.PersistentVolumeClaim? && claim.name == st.claimName && owner.kind.StatefulSet? && owner.name == "module4d-mongo"
    ensures B2.ClaimOwned(run, st, claim, owner) <==>
            && ClaimOfStatefulSet(st, claim, owner)
            && st.pvClaimNamespace == "it4931-k8s-" + run.runId && st.pvClaimName == st.claimName && st.pvClaimUid == claim.uid
  {
    hide LabelIs;
  }

  // ----- images -----

  /** The reference is pinned by the digest. */
  ghost predicate PinnedBy(reference: string, digest: string) {
    '@' !in digest && exists name :: reference == name + "@" + digest
  }

  /** What the node runs: the digest occurs in the runtime's image ID, or the configuration digest ends it. */
  ghost predicate Runs(runtimeImageId: string, digest: string, configDigest: string) {
    || (exists before, after :: runtimeImageId == before + ("@" + digest) + after)
    || (exists before, slashes :: runtimeImageId == before + configDigest + slashes && forall i :: 0 <= i < |slashes| ==> slashes[i] == '/')
  }

  lemma RuntimeRuns(id: string, digest: string, configDigest: string)
    requires Contains(id, "@" + digest) || HasSuffix(StripTrailing(id, '/'), configDigest)
    ensures Runs(id, digest, configDigest)
  {
    hide Contains, HasSuffix;
    ContainsExactly(id, "@" + digest);
    SuffixExactly(StripTrailing(id, '/'), configDigest);
    TrailingStripped(id, '/');
    if HasSuffix(StripTrailing(id, '/'), configDigest) {
      var stripped := StripTrailing(id, '/');
      var before :| stripped == before + configDigest;
      assert id == before + configDigest + id[|stripped|..];
    }
  }

  /** Sixty-four hexadecimal digits after `sha256:`. */
  ghost predicate Sha256(digest: string) {
    exists hex :: digest == "sha256:" + hex && |hex| == 64 && forall i :: 0 <= i < 64 ==> hex[i] in "0123456789abcdef"
  }

  /** The name under which a serving role runs. */
  predicate ServingPodName(role: string, name: string) {
    || (role == "mongo" && name == "module4d-mongo-0")
    || (role == "api_application_image" && HasPrefix(name, "module4d-api-"))
    || (role == "ui_application_image" && HasPrefix(name, "module4d-ui-"))
  }

  lemma ServingPodNames(role: string, name: string)
    requires B2.RolePod(role).Some? && B2.NameMatches(name, B2.RolePod(role).value)
    ensures ServingPodName(role, name)
  {
    hide HasPrefix;
    PatternNames(name);
    assert "module4d-api" + "-" == "module4d-api-" && "module4d-ui" + "-" == "module4d-ui-";
  }

  lemma LockedImage(image: B2.Image, exp: B2.Expectation)
    requires B2.ImageLocked(image, exp)
    ensures NotBlank(image.containerName) && Sha256(image.digest) && Sha256(image.configDigest)
    ensures image.role in exp.images && image.digest == exp.images[image.role]
    ensures PinnedBy(image.declaredReference, image.digest) && Runs(image.runtimeImageId, image.digest, image.configDigest)
  {
    hide NotBlank, IsDigest, Runs, Contains, HasSuffix;
    DigestShape(image.digest);
    DigestShape(image.configDigest);
    DigestExactly(image.declaredReference);
    RuntimeRuns(image.runtimeImageId, image.digest, image.configDigest);
  }

  /** Every image record is that of a serving role, locked, and running in a recorded Pod of that role. */
  lemma ServingImages(run: RunIdentity, r: B2.Receipt, exp: B2.Expectation, image: B2.Image)
    requires B2.Accepts(run, r, exp) && image in r.images
    ensures image.role in {"mongo", "api_application_image", "ui_application_image"} && |r.images| == 3
    ensures NotBlank(image.containerName) && Sha256(image.digest) && Sha256(image.configDigest)
    ensures image.role in exp.images && image.digest == exp.images[image.role]
    ensures PinnedBy(image.declaredReference, image.digest) && Runs(image.runtimeImageId, image.digest, image.configDigest)
    ensures exists pod :: pod in r.objects && pod.kind.Pod? && pod.uid == image.podUid && ServingPodName(image.role, pod.name)
  {
    assert B2.SERVING_ROLES == {"mongo", "api_application_image", "ui_application_image"};
    assert |B2.SERVING_ROLES| == 3 by { ThreeRoles(); }
    hide B2.ObjectsAdmissible, B2.ChildrenBound, B2.StorageContract, B2.ImagesAdmissible, B2.ClusterImagesLocked, B2.DIRECT_INVENTORY,
         B2.TargetsRun, B2.DirectKeys, B2.SERVING_ROLES, B2.ImageLocked, NotBlank, Sha256, PinnedBy, Runs, HasPrefix, B2.NameMatches;
    var objs := Elements(r.objects);
    B2.ImagesUnique(r.images, objs, exp);
    assert B2.ImageAdmissible(image, objs, exp);
    LockedImage(image, exp);
    B2.AdmissibleRole(image, objs, exp);
    var pod :| pod in objs && B2.RunsRole(pod, image);
    ServingPodNames(image.role, pod.name);
  }

  lemma ThreeRoles()
    ensures |B2.SERVING_ROLES| == 3
  {
    assert |"mongo"| == 5 && "api_application_image"[0] == 'a' && "ui_application_image"[0] == 'u';
  }

  /** Each of the ten cluster components has the expected image, pinned by a digest. */
  lemma ClusterImages(run: RunIdentity, r: B2.Receipt, exp: B2.Expectation, component: string)
    requires B2.Accepts(run, r, exp)
    ensures component in r.clusterImages <==>
              component in {"kube-apiserver", "kube-controller-manager", "kube-scheduler", "kube-proxy", "etcd", "pause", "coredns",
                            "cni", "node", "kube-controllers"}
    ensures component in r.clusterImages ==>
              && component in exp.clusterImages && r.clusterImages[component] == exp.clusterImages[component]
              && exists digest :: Sha256(digest) && PinnedBy(r.clusterImages[component], digest)
  {
    TenComponents(component);
    hide B2.ObjectsAdmissible, B2.ChildrenBound, B2.StorageContract, B2.ImagesAdmissible, B2.DIRECT_INVENTORY, B2.TargetsRun,
         B2.DirectKeys, B2.CLUSTER_ROLES, IsDigest, Sha256, PinnedBy;
    if component in r.clusterImages {
      PinnedReference(r.clusterImages[component]);
    }
  }

  lemma TenComponents(component: string)
    ensures component in B2.CLUSTER_ROLES <==>
              component in {"kube-apiserver", "kube-controller-manager", "kube-scheduler", "kube-proxy", "etcd", "pause", "coredns",
                            "cni", "node", "kube-controllers"}
  {
  }

  lemma PinnedReference(reference: string)
    requires '@' in reference && IsDigest(DigestPart(reference))
    ensures exists digest :: Sha256(digest) && PinnedBy(reference, digest)
  {
    hide IsDigest;
    DigestShape(DigestPart(reference));
    DigestExactly(reference);
    assert Sha256(DigestPart(reference)) && PinnedBy(reference, DigestPart(reference));
  }

  // ----- the pipeline receipt -----

  /** The receipt is of the first schema, for the run's profile and the locked cluster, and the lock is complete. */
  lemma PipelineTarget(run: RunIdentity, r: B3.Receipt, lock: B3.Lock)
    requires B3.Accepts(run, r, lock)
    ensures r.schemaVersion == 1 && lock.complete && r.clusterUid == lock.clusterUid
    ensures r.profile == r.context == r.namespace == "it4931-k8s-" + run.runId
    ensures r.namespaceUid != "" && OfRun(r.namespaceLabels, run.runId)
    ensures forall role :: role in {B3.Kafka, B3.HdfsNameNode, B3.HdfsDataNode, B3.PipelineApplication} ==> role in lock.images
  {
    FourRoles(lock);
    hide B3.InventoryDistinct, B3.DirectComplete, B3.ObjectChecked, B3.OnePodEach, B3.StorageValid, B3.RoleCovered, Carries, OfRun, B3.ROLES;
    CarriesRunLabels(run, r.namespaceLabels);
  }

  lemma FourRoles(lock: B3.Lock)
    ensures (forall i :: 0 <= i < |B3.ROLES| ==> B3.ROLES[i] in lock.images) ==>
              forall role :: role in {B3.Kafka, B3.HdfsNameNode, B3.HdfsDataNode, B3.PipelineApplication} ==> role in lock.images
  {
    assert B3.ROLES[0] == B3.Kafka && B3.ROLES[1] == B3.HdfsNameNode && B3.ROLES[2] == B3.HdfsDataNode && B3.ROLES[3] == B3.PipelineApplication;
  }

  /** As many keys as positions: no key recurs. */
  lemma {:induction false} CountedBy<T, K(!new)>(s: seq<T>, key: T -> K)
    ensures |ImageOf(Elements(s), key)| <= |s|
    ensures |ImageOf(Elements(s), key)| == |s| ==> DistinctBy(s, key)
  {
    if s != [] {
      var last := |s| - 1;
      CountedBy(s[..last], key);
      assert s == s[..last] + [s[last]];
      assert ImageOf(Elements(s), key) == ImageOf(Elements(s[..last]), key) + {key(s[last])};
      if |ImageOf(Elements(s), key)| == |s| {
        assert key(s[last]) !in ImageOf(Elements(s[..last]), key);
        forall i | 0 <= i < last ensures key(s[i]) != key(s[last]) {
          assert s[i] in Elements(s[..last]) && key(s[i]) in ImageOf(Elements(s[..last]), key);
        }
      }
    }
  }

  lemma DistinctKeys(objects: seq<ObjectRecord>)
    requires |ByKey(objects)| == |objects|
    ensures DistinctBy(objects, (o: ObjectRecord) => o.Key())
  {
    var key := (o: ObjectRecord) => o.Key();
    ByKeyHolds(objects);
    forall k ensures k in ImageOf(Elements(objects), key) <==> k in ByKey(objects) {
      if k in ByKey(objects) {
        assert ByKey(objects)[k] in Elements(objects) && key(ByKey(objects)[k]) == k;
      }
    }
    assert ImageOf(Elements(objects), key) == ByKey(objects).Keys;
    CountedBy(objects, key);
  }

  lemma DistinctUids(objects: seq<ObjectRecord>, a: string, b: string)
    requires |{a, b} + B3.UidsOf(objects)| == |objects| + 2
    ensures a != b && DistinctBy(objects, (o: ObjectRecord) => o.uid) && a !in B3.UidsOf(objects) && b !in B3.UidsOf(objects)
  {
    var uid := (o: ObjectRecord) => o.uid;
    forall u ensures u in ImageOf(Elements(objects), uid) <==> u in B3.UidsOf(objects) {
      if o :| o in objects && o.uid == u {
        assert o in Elements(objects) && uid(o) == u;
      }
    }
    assert ImageOf(Elements(objects), uid) == B3.UidsOf(objects);
    CountedBy(objects, uid);
    ApartFrom(a, b, B3.UidsOf(objects), |objects|);
  }

  lemma ApartFrom(a: string, b: string, uids: set<string>, n: nat)
    requires |{a, b} + uids| == n + 2 && |uids| <= n
    ensures a != b && a !in uids && b !in uids && |uids| == n
  {
    var extra := {a, b} - uids;
    assert {a, b} + uids == extra + uids && |extra + uids| == |extra| + |uids|;
    SameSizeSubset(extra, {a, b});
    assert |{a, b}| == 2 && extra == {a, b};
  }

  /** Every object is in the run namespace and labelled as the run's pipeline; names and UIDs never repeat. */
  lemma PipelineObjects(run: RunIdentity, r: B3.Receipt, lock: B3.Lock)
    requires B3.Accepts(run, r, lock)
    ensures r.clusterUid != "" && r.namespaceUid != "" && r.clusterUid != r.namespaceUid
    ensures forall o :: o in r.objects ==>
              && o.uid != "" && o.uid != r.clusterUid && o.uid != r.namespaceUid
              && o.namespace == "it4931-k8s-" + run.runId && OfRun(o.labels, run.runId)
              && LabelIs(o.labels, "it4931.instacart.edu/component", "pipeline")
    ensures forall i, j :: 0 <= i < j < |r.objects| ==>
              && r.objects[i].uid != r.objects[j].uid
              && (r.objects[i].kind != r.objects[j].kind || r.objects[i].name != r.objects[j].name)
  {
    hide B3.HeaderValid, B3.DirectComplete, B3.OnePodEach, B3.StorageValid, B3.RoleCovered, Carries, OfRun, LabelIs, B3.OwnerResolves,
         B3.ChildName;
    DistinctKeys(r.objects);
    DistinctUids(r.objects, r.clusterUid, r.namespaceUid);
    forall o | o in r.objects ensures OfRun(o.labels, run.runId) && o.uid != "" {
      CarriesRunLabels(run, o.labels);
      assert B3.ObjectChecked(run, o, ByKey(r.objects)) && o.uid in B3.UidsOf(r.objects);
    }
    forall i, j | 0 <= i < j < |r.objects|
      ensures r.objects[i].uid != r.objects[j].uid && (r.objects[i].kind != r.objects[j].kind || r.objects[i].name != r.objects[j].name)
    {
      assert r.objects[i].Key() != r.objects[j].Key();
    }
  }

  /** The names that B3 declares, by kind; the Jobs carry their step and the run ID. */
  predicate PipelineName(runId: string, k: Key) {
    match k.0
    case ConfigMap => k.1 == "it4931-pipeline-config"
    case ServiceAccount => k.1 == "module4d-pipeline"
    case PersistentVolumeClaim => ClaimSize(k.1).Some?
    case Service => k.1 in {"namenode", "datanode", "kafka"}
    case StatefulSet => k.1 in {"hdfs-namenode", "hdfs-datanode", "kafka"}
    case NetworkPolicy => k.1 in {"allow-pipeline-egress", "allow-pipeline-to-hdfs", "allow-pipeline-to-datanode",
                                  "allow-datanode-to-namenode", "allow-datanode-egress-to-namenode",
                                  "allow-kafka-controller-self", "allow-pipeline-to-kafka", "allow-pipeline-to-mongo",
                                  "allow-acceptance-api-egress", "allow-acceptance-to-api"}
    case Job => exists step :: step in {"input", "module1", "module2", "module4", "replay", "hybrid"} && k.1 == "it4931-" + step + "-" + runId
    case _ => false
  }

  /** The five claims with the size each asks for, as written and in gibibytes. */
  function ClaimSize(name: string): Option<(string, nat)> {
    if name == "it4931-hdfs-namenode" then Some(("1Gi", 1))
    else if name == "it4931-hdfs-datanode" then Some(("16Gi", 16))
    else if name == "it4931-kafka-data" then Some(("2Gi", 2))
    else if name == "it4931-pipeline-data" then Some(("16Gi", 16))
    else if name == "it4931-pipeline-checkpoints" then Some(("2Gi", 2))
    else None
  }

  lemma ClaimsListed(name: string)
    ensures name in B3.CLAIMS <==> ClaimSize(name).Some?
    ensures name in B3.CLAIMS ==> B3.CLAIMS[name] == (ClaimSize(name).value.0, ClaimSize(name).value.1 * 1073741824)
  {
  }

  lemma PipelineNames(run: RunIdentity, k: Key)
    ensures k in B3.ExpectedDirect(run) <==> PipelineName(run.runId, k)
  {
    ClaimsListed(k.1);
    StepsListed(run, k.1);
    hide B3.CLAIMS, ClaimSize, B3.JobNames, B3.STEPS;
  }

  lemma StepsListed(run: RunIdentity, name: string)
    ensures name in B3.JobNames(run) <==>
            exists step :: step in {"input", "module1", "module2", "module4", "replay", "hybrid"} && name == "it4931-" + step + "-" + run.runId
  {
    assert forall step :: step in B3.STEPS <==> step in {"input", "module1", "module2", "module4", "replay", "hybrid"};
    hide B3.STEPS;
    if name in B3.JobNames(run) {
      var step :| step in B3.STEPS && name == JobName(step, run.runId);
      assert name == "it4931-" + step + "-" + run.runId;
    }
    if step :| step in {"input", "module1", "module2", "module4", "replay", "hybrid"} && name == "it4931-" + step + "-" + run.runId {
      assert step in B3.STEPS && name == JobName(step, run.runId);
    }
  }

  /** The recorded objects other than Pods are exactly the declared ones. */
  lemma PipelineInventory(run: RunIdentity, r: B3.Receipt, lock: B3.Lock, k: Key)
    requires B3.Accepts(run, r, lock) && !k.0.Pod?
    ensures PipelineName(run.runId, k) <==> exists o :: o in r.objects && o.kind == k.0 && o.name == k.1
  {
    hide B3.HeaderValid, B3.InventoryDistinct, B3.ObjectChecked, B3.OnePodEach, B3.StorageValid, B3.RoleCovered, B3.ExpectedDirect, PipelineName;
    PipelineNames(run, k);
    ByKeyHolds(r.objects);
    assert k in B3.NonPods(ByKey(r.objects).Keys) <==> k in ByKey(r.objects);
    if o :| o in r.objects && o.kind == k.0 && o.name == k.1 {
      assert o.Key() == k;
    }
  }

  /** Each of the six Jobs has succeeded once and is no longer active; no other Job is reported. */
  lemma PipelineJobs(run: RunIdentity, r: B3.Receipt, lock: B3.Lock, name: string)
    requires B3.Accepts(run, r, lock)
    ensures name in r.jobStatus <==>
              exists step :: step in {"input", "module1", "module2", "module4", "replay", "hybrid"} && name == "it4931-" + step + "-" + run.runId
    ensures name in r.jobStatus ==> r.jobStatus[name].succeeded == 1 && r.jobStatus[name].active == 0
  {
    hide B3.HeaderValid, B3.InventoryDistinct, B3.ObjectChecked, B3.OnePodEach, B3.StorageValid, B3.RoleCovered, B3.JobNames;
    StepsListed(run, name);
  }

  /** Every Pod has one owner, its controller: a recorded Job or StatefulSet with that UID, which its name shows. */
  lemma PipelinePods(run: RunIdentity, r: B3.Receipt, lock: B3.Lock, pod: ObjectRecord)
    requires B3.Accepts(run, r, lock) && pod in r.objects && pod.kind.Pod?
    ensures exists owner :: owner in r.objects && SoleController(pod, owner)
              && (|| (owner.kind.Job? && HasPrefix(pod.name, owner.name + "-"))
                  || (owner.kind.StatefulSet? && pod.name == owner.name + "-0"))
  {
    hide B3.HeaderValid, B3.InventoryDistinct, B3.DirectComplete, B3.OnePodEach, B3.StorageValid, B3.RoleCovered, HasPrefix, B3.JobNames;
    B3.CheckedPod(run, pod, ByKey(r.objects));
    ByKeyHolds(r.objects);
    var owner := ByKey(r.objects)[B3.OwnerKey(pod)];
    assert owner.Key() == B3.OwnerKey(pod) && SoleController(pod, owner);
  }

  /** One claim of the pipeline, bound to its own volume on the locked StorageClass and the profile's own host. */
  ghost predicate PipelineClaim(run: RunIdentity, objects: seq<ObjectRecord>, st: B3.Storage, lock: B3.Lock) {
    && ClaimSize(st.claimName).Some?
    && st.requestedStorage == ClaimSize(st.claimName).value.0 && st.capacity >= ClaimSize(st.claimName).value.1 * 1073741824
    && st.accessMode == "ReadWriteOnce" && st.owners == []
    && st.claimRefNamespace == "it4931-k8s-" + run.runId && st.claimRefName == st.claimName && st.claimRefUid == st.claimUid
    && (exists claim :: claim in objects && claim.kind.PersistentVolumeClaim? && claim.name == st.claimName && claim.uid == st.claimUid)
    && st.storageClassUid == lock.storageClassUid && st.provisioner == lock.provisioner
    && st.profileLocal && st.localityKind == "hostPath" && HasPrefix(st.localityPath, "/tmp/hostpath-provisioner/")
    && st.claimUid != "" && st.volumeUid != "" && st.storageClass != "" && st.storageClassUid != "" && st.nodeName != "" && st.nodeUid != ""
  }

  lemma LockedStorage(run: RunIdentity, objects: seq<ObjectRecord>, st: B3.Storage, lock: B3.Lock)
    requires B3.StorageLocked(run, st, ByKey(objects), lock)
    ensures PipelineClaim(run, objects, st, lock)
  {
    hide B3.CLAIMS, ClaimSize, HasPrefix;
    ClaimsListed(st.claimName);
    ByKeyHolds(objects);
    var claim := ByKey(objects)[(PersistentVolumeClaim, st.claimName)];
    assert claim.Key() == (PersistentVolumeClaim, st.claimName);
  }

  /** The storage records cover the five claims, each with a volume of its own. */
  lemma PipelineStorage(run: RunIdentity, r: B3.Receipt, lock: B3.Lock)
    requires B3.Accepts(run, r, lock)
    ensures forall st :: st in r.storage ==> PipelineClaim(run, r.objects, st, lock)
    ensures forall name :: ClaimSize(name).Some? ==> exists st :: st in r.storage && st.claimName == name
    ensures forall i, j :: 0 <= i < j < |r.storage| ==>
              r.storage[i].volumeUid != r.storage[j].volumeUid && r.storage[i].volumeName != r.storage[j].volumeName
  {
    hide B3.HeaderValid, B3.InventoryDistinct, B3.DirectComplete, B3.ObjectChecked, B3.OnePodEach, B3.RoleCovered, B3.CLAIMS,
         ClaimSize, PipelineClaim, B3.StorageLocked;
    forall st | st in r.storage ensures PipelineClaim(run, r.objects, st, lock) {
      LockedStorage(run, r.objects, st, lock);
    }
    forall name | ClaimSize(name).Some? ensures exists st :: st in r.storage && st.claimName == name {
      ClaimsListed(name);
      assert name in (set st | st in r.storage :: st.claimName);
    }
    VolumeUidsDiffer(r.storage);
    VolumeNamesDiffer(r.storage);
  }

  lemma VolumeUidsDiffer(storage: seq<B3.Storage>)
    requires |set st | st in storage :: st.volumeUid| == |storage|
    ensures DistinctBy(storage, (st: B3.Storage) => st.volumeUid)
  {
    var uids, uid := set st | st in storage :: st.volumeUid, (st: B3.Storage) => st.volumeUid;
    forall st | st in storage ensures uid(st) in ImageOf(Elements(storage), uid) {
      assert st in Elements(storage);
    }
    assert ImageOf(Elements(storage), uid) == uids;
    CountedBy(storage, uid);
  }

  lemma VolumeNamesDiffer(storage: seq<B3.Storage>)
    requires |set st | st in storage :: st.volumeName| == |storage|
    ensures DistinctBy(storage, (st: B3.Storage) => st.volumeName)
  {
    var names, name := set st | st in storage :: st.volumeName, (st: B3.Storage) => st.volumeName;
    forall st | st in storage ensures name(st) in ImageOf(Elements(storage), name) {
      assert st in Elements(storage);
    }
    assert ImageOf(Elements(storage), name) == names;
    CountedBy(storage, name);
  }

  /** Every image record of a locked role shows the locked reference and digest, and what its Pod runs. */
  lemma PipelineImages(run: RunIdentity, r: B3.Receipt, lock: B3.Lock, image: B3.Image)
    requires B3.Accepts(run, r, lock) && image in r.images
    requires image.role in {B3.Kafka, B3.HdfsNameNode, B3.HdfsDataNode, B3.PipelineApplication}
    ensures image.role in lock.images && image.declaredReference == lock.images[image.role].reference
    ensures image.digest == lock.images[image.role].digest && PinnedBy(image.declaredReference, image.digest)
    ensures image.runtimeImageId != "" && Runs(image.runtimeImageId, image.digest, image.configDigest)
    ensures exists pod :: pod in r.objects && pod.kind.Pod? && pod.uid == image.podUid
              && |pod.owners| == 1 && pod.owners[0].name == image.workload && WorkloadOfRole(image.role, pod.owners[0])
  {
    hide *;
    PipelineTarget(run, r, lock);
    CoveredRole(run, r, lock, image.role);
    RoleImage(run, r, lock, image);
  }

  lemma CoveredRole(run: RunIdentity, r: B3.Receipt, lock: B3.Lock, role: B3.Role)
    requires B3.Accepts(run, r, lock) && role in {B3.Kafka, B3.HdfsNameNode, B3.HdfsDataNode, B3.PipelineApplication}
    ensures role in lock.images && B3.RoleCovered(run, r.images, role, Elements(r.objects), lock)
  {
    hide B3.InventoryDistinct, B3.DirectComplete, B3.ObjectChecked, B3.OnePodEach, B3.StorageValid, B3.RoleCovered, B3.HeaderValid;
    PipelineTarget(run, r, lock);
    assert B3.ROLES[0] == B3.Kafka && B3.ROLES[1] == B3.HdfsNameNode && B3.ROLES[2] == B3.HdfsDataNode && B3.ROLES[3] == B3.PipelineApplication;
  }

  /** Applications run in Jobs, and the three services each in their StatefulSet. */
  predicate WorkloadOfRole(role: B3.Role, owner: Owner) {
    match role
    case PipelineApplication => owner.kind.Job?
    case Kafka => owner.kind.StatefulSet? && owner.name == "kafka"
    case HdfsNameNode => owner.kind.StatefulSet? && owner.name == "hdfs-namenode"
    case HdfsDataNode => owner.kind.StatefulSet? && owner.name == "hdfs-datanode"
    case OtherRole(_) => false
  }

  lemma RoleImage(run: RunIdentity, r: B3.Receipt, lock: B3.Lock, image: B3.Image)
    requires image in r.images && image.role in lock.images && !image.role.OtherRole?
    requires B3.RoleCovered(run, r.images, image.role, Elements(r.objects), lock)
    ensures image.declaredReference == lock.images[image.role].reference
    ensures image.digest == lock.images[image.role].digest && PinnedBy(image.declaredReference, image.digest)
    ensures image.runtimeImageId != "" && Runs(image.runtimeImageId, image.digest, image.configDigest)
    ensures exists pod :: pod in r.objects && pod.kind.Pod? && pod.uid == image.podUid
              && |pod.owners| == 1 && pod.owners[0].name == image.workload && WorkloadOfRole(image.role, pod.owners[0])
  {
    hide Runs, Contains, HasSuffix, B3.JobNames;
    B3.OfRoleHolds(r.images, image.role);
    assert B3.ImageBound(run, image, Elements(r.objects), lock.images[image.role]);
    DigestExactly(image.declaredReference);
    RuntimeRuns(image.runtimeImageId, image.digest, image.configDigest);
    var pod := Inhabitant(B3.PodsRunning(run, image, Elements(r.objects)));
    assert pod in r.objects && B3.RunsIn(run, image, pod);
  }
}
