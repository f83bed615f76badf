/**
 The B2 serving receipt: its validation, and the comparison with live identities
 (scripts/k8s/ownership.py).
 */
module ServingReceipt {
  import opened Wrappers
  import opened Collections
  import opened Ownership

  datatype Storage = Storage(
    claimName: string, claimUid: string, volumeName: string, volumeUid: string,
    pvClaimNamespace: string, pvClaimName: string, pvClaimUid: string,
    storageClass: string, storageClassUid: string, provisioner: string,
    requestedStorage: string, capacity: string, accessMode: string, profileLocal: bool,
    localityKind: string, localityPath: string, claimOwnerUid: string,
    localityNodeName: string, localityNodeUid: string, claimTemplateName: string,
    retentionWhenDeleted: string, retentionWhenScaled: string)

  datatype Image = Image(
    role: string, podUid: string, containerName: string, declaredReference: string,
    runtimeImageId: string, digest: string, configDigest: string)

  datatype Receipt = Receipt(
    profile: string, context: string, clusterUid: string, namespace: string,
    namespaceUid: string, namespaceLabels: Labels, objects: seq<ObjectRecord>,
    storage: Storage, images: seq<Image>, clusterImages: map<string, string>)

  /** What the finalized lock says the receipt must show. */
  datatype Expectation = Expectation(
    images: map<string, string>, clusterImages: map<string, string>,
    storageClass: string, provisioner: string)

  const SERVING_ROLES: set<string> := {"mongo", "api_application_image", "ui_application_image"}

  const CLUSTER_ROLES: set<string> := {
    "kube-apiserver", "kube-controller-manager", "kube-scheduler", "kube-proxy", "etcd", "pause", "coredns",
    "cni", "node", "kube-controllers"}

  const WORKLOADS: set<Key> := {
    (StatefulSet, "module4d-mongo"), (Deployment, "module4d-api"), (Deployment, "module4d-ui"),
    (PersistentVolumeClaim, "data-module4d-mongo-0"),
    (Service, "module4d-mongo-headless"), (Service, "module4d-mongo"), (Service, "module4d-api"), (Service, "module4d-ui")}

  const SETTINGS: set<Key> := {
    (ResourceQuota, "it4931-quota"), (LimitRange, "it4931-limits"),
    (ServiceAccount, "module4d-mongo"), (ServiceAccount, "module4d-api"), (ServiceAccount, "module4d-ui"),
    (ConfigMap, "module4d-api-config"), (ConfigMap, "module4d-ui-config")}

  const POLICIES: set<Key> := {
    (NetworkPolicy, "default-deny"), (NetworkPolicy, "allow-dns-egress"), (NetworkPolicy, "allow-api-to-mongo"),
    (NetworkPolicy, "allow-ui-to-api"), (NetworkPolicy, "allow-api-egress"), (NetworkPolicy, "allow-ui-egress")}

  const SECRETS: set<Key> := {
    (ConfigMap, "module4d-mongo-bootstrap"), (Secret, "module4d-mongo-admin"), (Secret, "module4d-mongo-accounts"),
    (Secret, "module4d-api-readonly"), (Secret, "module4d-mongo-publisher")}

  const DIRECT_INVENTORY: set<Key> := WORKLOADS + SETTINGS + POLICIES + SECRETS

  /** A controller-created child and its controller; a name that ends in `-` stands for a prefix. */
  datatype ChildPattern = ChildPattern(kind: Kind, name: string, ownerKind: Kind, ownerName: string)

  const CHILDREN: seq<ChildPattern> := [
    ChildPattern(Pod, "module4d-mongo-0", StatefulSet, "module4d-mongo"),
    ChildPattern(ReplicaSet, "module4d-api-", Deployment, "module4d-api"),
    ChildPattern(Pod, "module4d-api-", ReplicaSet, "module4d-api-"),
    ChildPattern(ReplicaSet, "module4d-ui-", Deployment, "module4d-ui"),
    ChildPattern(Pod, "module4d-ui-", ReplicaSet, "module4d-ui-")]

  predicate NameMatches(name: string, pattern: string) {
    if HasSuffix(pattern, "-") then HasPrefix(name, pattern) else name == pattern
  }

  predicate Dynamic(kind: Kind) {
    kind.Pod? || kind.ReplicaSet?
  }

  // ----- objects -----

  predicate Admissible(o: ObjectRecord, run: RunIdentity) {
    && (o.kind.OtherKind? ==> NotBlank(o.kind.name))
    && NotBlank(o.name)
    && NotBlank(o.uid)
    && o.namespace == run.Namespace()
    && Carries(o.labels, run.RunLabels())
  }

  function UidsOf(objects: seq<ObjectRecord>): set<string> {
    if objects == [] then {} else UidsOf(objects[..|objects| - 1]) + {objects[|objects| - 1].uid}
  }

  lemma {:induction false} UidsOfHolds(objects: seq<ObjectRecord>)
    ensures forall u :: u in UidsOf(objects) <==> exists o :: o in objects && o.uid == u
  {
    if objects != [] {
      var earlier, last := objects[..|objects| - 1], objects[|objects| - 1];
      UidsOfHolds(earlier);
      assert objects == earlier + [last];
      assert last in objects;
    }
  }

  /** Every record is admissible, with a name and a UID that no earlier record and no parent uses. */
  ghost predicate ObjectsAdmissible(run: RunIdentity, reserved: set<string>, objects: seq<ObjectRecord>) {
    objects == []
    || (var earlier, last := objects[..|objects| - 1], objects[|objects| - 1];
        && ObjectsAdmissible(run, reserved, earlier)
        && Admissible(last, run)
        && last.uid !in reserved + UidsOf(earlier)
        && last.Key() !in ByKey(earlier))
  }

  lemma {:induction false} AdmissiblePrefix(run: RunIdentity, reserved: set<string>, objects: seq<ObjectRecord>, n: nat)
    requires n <= |objects| && !ObjectsAdmissible(run, reserved, objects[..n])
    ensures !ObjectsAdmissible(run, reserved, objects)
    decreases |objects|
  {
    if n < |objects| {
      var earlier := objects[..|objects| - 1];
      assert earlier[..n] == objects[..n];
      AdmissiblePrefix(run, reserved, earlier, n);
    } else {
      assert objects[..n] == objects;
    }
  }

  method IndexObjects(run: RunIdentity, reserved: set<string>, objects: seq<ObjectRecord>)
    returns (ok: bool, observed: map<Key, ObjectRecord>, uids: set<string>)
    ensures ok <==> ObjectsAdmissible(run, reserved, objects)
    ensures ok ==> observed == ByKey(objects) && uids == reserved + UidsOf(objects)
  {
    hide Admissible;
    observed, uids := map[], reserved;
    for i := 0 to |objects|
      invariant ObjectsAdmissible(run, reserved, objects[..i])
      invariant observed == ByKey(objects[..i])
      invariant uids == reserved + UidsOf(objects[..i])
    {
      var item := objects[i];
      PrefixStep(objects, i);
      if !Admissible(item, run) || item.uid in uids || item.Key() in observed {
        AdmissiblePrefix(run, reserved, objects, i + 1);
        return false, observed, uids;
      }
      observed := observed[item.Key() := item];
      uids := uids + {item.uid};
    }
    assert objects[..|objects|] == objects;
    ok := true;
  }

  lemma {:induction false} AdmissibleObjects(run: RunIdentity, reserved: set<string>, objects: seq<ObjectRecord>)
    requires ObjectsAdmissible(run, reserved, objects)
    ensures UniqueKeys(objects) && UniqueUids(objects)
    ensures forall o :: o in objects ==> Admissible(o, run) && o.uid !in reserved
  {
    hide Admissible;
    if objects != [] {
      var earlier, last := objects[..|objects| - 1], objects[|objects| - 1];
      assert objects == earlier + [last];
      assert ObjectsAdmissible(run, reserved, earlier) && Admissible(last, run);
      assert last.uid !in reserved + UidsOf(earlier) && last.Key() !in ByKey(earlier);
      hide ObjectsAdmissible, UidsOf, ByKey;
      AdmissibleObjects(run, reserved, earlier);
      ByKeyHolds(earlier);
      UidsOfHolds(earlier);
    }
  }

  // ----- owner chains -----

  function Matching(objs: set<ObjectRecord>, kind: Kind, pattern: string): set<ObjectRecord> {
    set o | o in objs && o.kind == kind && NameMatches(o.name, pattern)
  }

  /** One child, one controller, and nothing but that controller among the child's owners. */
  ghost predicate ChildBound(objs: set<ObjectRecord>, p: ChildPattern) {
    var children, parents := Matching(objs, p.kind, p.name), Matching(objs, p.ownerKind, p.ownerName);
    && |children| == 1
    && |parents| == 1
    && forall c, o :: c in children && o in parents ==> c.ControlledBy(o)
  }

  predicate Fits(o: ObjectRecord, p: ChildPattern) {
    o.kind == p.kind && NameMatches(o.name, p.name)
  }

  ghost predicate FitsOne(o: ObjectRecord, patterns: seq<ChildPattern>) {
    exists i :: 0 <= i < |patterns| && Fits(o, patterns[i])
  }

  ghost predicate ChildrenBound(objs: set<ObjectRecord>, patterns: seq<ChildPattern>) {
    && (forall i :: 0 <= i < |patterns| ==> ChildBound(objs, patterns[i]))
    && (forall o :: o in objs && Dynamic(o.kind) ==> FitsOne(o, patterns))
  }

  method CheckChild(objs: set<ObjectRecord>, p: ChildPattern) returns (found: Option<ObjectRecord>)
    ensures found.Some? <==> ChildBound(objs, p)
    ensures found.Some? ==> forall o :: o in objs ==> (Fits(o, p) <==> o == found.value)
    ensures found.Some? ==> found.value in objs && found.value.kind == p.kind
  {
    var candidates := Matching(objs, p.kind, p.name);
    if |candidates| != 1 {
      return None;
    }
    var child :| child in candidates;
    Singleton(candidates, child);
    var parents := Matching(objs, p.ownerKind, p.ownerName);
    if |parents| != 1 {
      return None;
    }
    var parent :| parent in parents;
    Singleton(parents, parent);
    if !child.ControlledBy(parent) {
      return None;
    }
    assert forall o :: o in objs ==> (Fits(o, p) <==> o in candidates);
    found := Some(child);
  }

  lemma FitsOneMore(o: ObjectRecord, patterns: seq<ChildPattern>, i: nat)
    requires i < |patterns|
    ensures FitsOne(o, patterns[..i + 1]) <==> FitsOne(o, patterns[..i]) || Fits(o, patterns[i])
  {
    if Fits(o, patterns[i]) {
      assert patterns[..i + 1][i] == patterns[i];
    }
    if FitsOne(o, patterns[..i]) {
      var j :| 0 <= j < i && Fits(o, patterns[..i][j]);
      assert patterns[..i + 1][j] == patterns[..i][j];
    }
  }

  method CheckChildren(objs: set<ObjectRecord>, patterns: seq<ChildPattern>) returns (ok: bool)
    requires forall a, b :: a in objs && b in objs && a.Key() == b.Key() ==> a == b
    requires forall p :: p in patterns ==> Dynamic(p.kind)
    ensures ok <==> ChildrenBound(objs, patterns)
  {
    hide NameMatches;
    hide ChildBound;
    var matched: set<Key> := {};
    for i := 0 to |patterns|
      invariant forall j :: 0 <= j < i ==> ChildBound(objs, patterns[j])
      invariant forall o :: o in objs ==> (o.Key() in matched <==> FitsOne(o, patterns[..i]))
      invariant forall k :: k in matched ==> Dynamic(k.0) && exists o :: o in objs && o.Key() == k
    {
      var child := CheckChild(objs, patterns[i]);
      if child.None? {
        return false;
      }
      matched := matched + {child.value.Key()};
      forall o | o in objs ensures o.Key() in matched <==> FitsOne(o, patterns[..i + 1]) {
        FitsOneMore(o, patterns, i);
      }
    }
    assert patterns[..|patterns|] == patterns;
    var dynamic := set o | o in objs && Dynamic(o.kind) :: o.Key();
    assert forall o :: o in objs && Dynamic(o.kind) ==> o.Key() in dynamic;
    ok := dynamic == matched;
  }

  // ----- storage -----

  predicate StorageComplete(st: Storage) {
    && NotBlank(st.claimName) && NotBlank(st.claimUid) && NotBlank(st.volumeName) && NotBlank(st.volumeUid)
    && NotBlank(st.pvClaimNamespace) && NotBlank(st.pvClaimName) && NotBlank(st.pvClaimUid)
    && NotBlank(st.storageClass) && NotBlank(st.storageClassUid) && NotBlank(st.provisioner)
    && NotBlank(st.requestedStorage) && NotBlank(st.capacity) && NotBlank(st.accessMode)
    && NotBlank(st.localityKind) && NotBlank(st.localityPath) && NotBlank(st.claimOwnerUid)
    && NotBlank(st.localityNodeName) && NotBlank(st.localityNodeUid) && NotBlank(st.claimTemplateName)
    && NotBlank(st.retentionWhenDeleted) && NotBlank(st.retentionWhenScaled)
  }

  /** The claim, its volume, its StorageClass and its node are four more identities, foreign to every object. */
  predicate StorageUidsNew(st: Storage, uids: set<string>) {
    && st.volumeUid !in uids && st.storageClassUid !in uids && st.localityNodeUid !in uids
    && |{st.volumeUid, st.storageClassUid, st.localityNodeUid}| == 3
  }

  predicate ClaimOwned(run: RunIdentity, st: Storage, pvc: ObjectRecord, sts: ObjectRecord) {
    && (pvc.owners == [] || pvc.owners == [Owner(StatefulSet, "module4d-mongo", sts.uid, true)])
    && LabelIs(pvc.labels, "app.kubernetes.io/name", "module4d-mongo")
    && LabelIs(pvc.labels, "app.kubernetes.io/component", "database")
    && st.claimUid == pvc.uid
    && st.pvClaimNamespace == run.Namespace()
    && st.pvClaimName == st.claimName
    && st.pvClaimUid == pvc.uid
    && st.claimOwnerUid == sts.uid
  }

  predicate StorageAsDeclared(st: Storage, exp: Expectation) {
    && st.claimName == "data-module4d-mongo-0"
    && st.claimTemplateName == "data"
    && st.retentionWhenDeleted == "Retain"
    && st.retentionWhenScaled == "Retain"
    && st.storageClass == exp.storageClass
    && st.provisioner == exp.provisioner
    && st.requestedStorage == "2Gi"
    && st.capacity == "2Gi"
    && st.accessMode == "ReadWriteOnce"
    && st.profileLocal
    && st.localityKind == "hostPath"
    && HasPrefix(st.localityPath, "/tmp/hostpath-provisioner/")
  }

  predicate StorageContract(run: RunIdentity, st: Storage, observed: map<Key, ObjectRecord>, uids: set<string>, exp: Expectation) {
    var claim, owner := (PersistentVolumeClaim, st.claimName), (StatefulSet, "module4d-mongo");
    && StorageComplete(st)
    && claim in observed && owner in observed
    && ClaimOwned(run, st, observed[claim], observed[owner])
    && StorageUidsNew(st, uids)
    && StorageAsDeclared(st, exp)
  }

  // ----- images -----

  function RolePod(role: string): Option<string> {
    if role == "mongo" then Some("module4d-mongo-0")
    else if role == "api_application_image" then Some("module4d-api-")
    else if role == "ui_application_image" then Some("module4d-ui-")
    else None
  }

  predicate RunsRole(o: ObjectRecord, image: Image) {
    && o.kind.Pod? && o.uid == image.podUid
    && RolePod(image.role).Some? && NameMatches(o.name, RolePod(image.role).value)
  }

  predicate ImageLocked(image: Image, exp: Expectation) {
    && image.role in exp.images
    && NotBlank(image.containerName)
    && image.digest == exp.images[image.role]
    && IsDigest(image.digest) && IsDigest(image.configDigest)
    && (Contains(image.runtimeImageId, "@" + image.digest)
        || HasSuffix(StripTrailing(image.runtimeImageId, '/'), image.configDigest))
    && '@' in image.declaredReference
    && DigestPart(image.declaredReference) == image.digest
  }

  function PodsRunning(objs: set<ObjectRecord>, image: Image): set<ObjectRecord> {
    set o | o in objs && RunsRole(o, image)
  }

  predicate ImageAdmissible(image: Image, objs: set<ObjectRecord>, exp: Expectation) {
    ImageLocked(image, exp) && PodsRunning(objs, image) != {}
  }

  function ImageRoles(images: seq<Image>): set<string> {
    if images == [] then {} else ImageRoles(images[..|images| - 1]) + {images[|images| - 1].role}
  }

  ghost predicate ImagesAdmissible(images: seq<Image>, objs: set<ObjectRecord>, exp: Expectation) {
    images == []
    || (var earlier, last := images[..|images| - 1], images[|images| - 1];
        && ImagesAdmissible(earlier, objs, exp)
        && last.role !in ImageRoles(earlier)
        && ImageAdmissible(last, objs, exp))
  }

  lemma {:induction false} ImagesPrefix(images: seq<Image>, objs: set<ObjectRecord>, exp: Expectation, n: nat)
    requires n <= |images| && !ImagesAdmissible(images[..n], objs, exp)
    ensures !ImagesAdmissible(images, objs, exp)
  {
    if n < |images| {
      var earlier := images[..|images| - 1];
      assert earlier[..n] == images[..n];
      ImagesPrefix(earlier, objs, exp, n);
    } else {
      assert images[..n] == images;
    }
  }

  method CheckImages(images: seq<Image>, objs: set<ObjectRecord>, exp: Expectation) returns (ok: bool)
    ensures ok <==> ImagesAdmissible(images, objs, exp)
  {
    hide ImageAdmissible;
    var seenRoles: set<string> := {};
    for i := 0 to |images|
      invariant ImagesAdmissible(images[..i], objs, exp)
      invariant seenRoles == ImageRoles(images[..i])
    {
      PrefixStep(images, i);
      if images[i].role in seenRoles || !ImageAdmissible(images[i], objs, exp) {
        ImagesPrefix(images, objs, exp, i + 1);
        return false;
      }
      seenRoles := seenRoles + {images[i].role};
    }
    assert images[..|images|] == images;
    ok := true;
  }

  // ----- the verdict -----

  predicate TargetsRun(run: RunIdentity, r: Receipt) {
    && r.profile == run.Profile() && r.context == run.Profile() && r.namespace == run.Namespace()
    && r.namespace !in PROTECTED_NAMESPACES
    && NotBlank(r.clusterUid) && NotBlank(r.namespaceUid)
    && Carries(r.namespaceLabels, run.RunLabels())
  }

  function DirectKeys(keys: set<Key>): set<Key> {
    set k | k in keys && !Dynamic(k.0)
  }

  predicate ClusterImagesLocked(r: Receipt, exp: Expectation) {
    && exp.clusterImages.Keys == CLUSTER_ROLES
    && r.clusterImages == exp.clusterImages
    && forall k :: k in r.clusterImages ==>
         '@' in r.clusterImages[k] && IsDigest(DigestPart(r.clusterImages[k]))
  }

  ghost predicate Accepts(run: RunIdentity, r: Receipt, exp: Expectation) {
    && TargetsRun(run, r)
    && ObjectsAdmissible(run, {r.clusterUid, r.namespaceUid}, r.objects)
    && DirectKeys(ByKey(r.objects).Keys) == DIRECT_INVENTORY
    && ChildrenBound(Elements(r.objects), CHILDREN)
    && StorageContract(run, r.storage, ByKey(r.objects), {r.clusterUid, r.namespaceUid} + UidsOf(r.objects), exp)
    && exp.images.Keys == SERVING_ROLES
    && |r.images| == |SERVING_ROLES|
    && ImagesAdmissible(r.images, Elements(r.objects), exp)
    && ClusterImagesLocked(r, exp)
  }

  method ValidateRuntimeReceipt(run: RunIdentity, r: Receipt, exp: Expectation) returns (v: Verdict)
    ensures v.Accepted? <==> Accepts(run, r, exp)
  {
    hide ObjectsAdmissible;
    hide ChildrenBound;
    hide StorageContract;
    hide ImagesAdmissible;
    hide ClusterImagesLocked;
    hide TargetsRun;
    hide DirectKeys;
    hide DIRECT_INVENTORY;
    hide SERVING_ROLES;
    hide UidsOf;
    hide ByKey;
    if !TargetsRun(run, r) {
      return Refused("target, namespace or cluster identity does not match the run");
    }
    var ok, observed, uids := IndexObjects(run, {r.clusterUid, r.namespaceUid}, r.objects);
    if !ok {
      return Refused("live object inventory is invalid");
    }
    ObservedValues(run, {r.clusterUid, r.namespaceUid}, r.objects);
    if DirectKeys(observed.Keys) != DIRECT_INVENTORY {
      return Refused("direct-resource inventory is incomplete or contains an unapproved object");
    }
    var objs := observed.Values;
    assert forall p :: p in CHILDREN ==> Dynamic(p.kind);
    ok := CheckChildren(objs, CHILDREN);
    if !ok {
      return Refused("owner reference does not bind a controller child");
    }
    if !StorageContract(run, r.storage, observed, uids, exp) {
      return Refused("PVC/PV/StorageClass locality contract does not match");
    }
    if exp.images.Keys != SERVING_ROLES || |r.images| != |SERVING_ROLES| {
      return Refused("image receipt is incomplete");
    }
    ok := CheckImages(r.images, objs, exp);
    if !ok {
      return Refused("running image identity does not match the lock");
    }
    if !ClusterImagesLocked(r, exp) {
      return Refused("cluster component image identities do not match the version lock");
    }
    v := Accepted;
  }

  lemma ObservedValues(run: RunIdentity, reserved: set<string>, objects: seq<ObjectRecord>)
    requires ObjectsAdmissible(run, reserved, objects)
    ensures ByKey(objects).Values == Elements(objects)
    ensures forall a, b :: a in Elements(objects) && b in Elements(objects) && a.Key() == b.Key() ==> a == b
  {
    hide Admissible;
    AdmissibleObjects(run, reserved, objects);
    ByKeyHolds(objects);
    forall o | o in objects ensures o in ByKey(objects).Values {
      assert ByKey(objects)[o.Key()] == o;
    }
  }

  // ----- what acceptance means -----

  /** The tenth character tells the Mongo, API and UI names apart. */
  lemma TenthCharacter(name: string, i: nat)
    requires i < |CHILDREN| && NameMatches(name, CHILDREN[i].name)
    ensures |name| > 9 && name[9] == if i == 0 then 'm' else if i <= 2 then 'a' else 'u'
  {
    assert CHILDREN[0].name[9] == 'm' && CHILDREN[1].name[9] == 'a' && CHILDREN[2].name[9] == 'a';
    assert CHILDREN[3].name[9] == 'u' && CHILDREN[4].name[9] == 'u';
  }

  lemma PatternsExclusive(o: ObjectRecord, i: nat, j: nat)
    requires i < |CHILDREN| && j < |CHILDREN| && Fits(o, CHILDREN[i]) && Fits(o, CHILDREN[j])
    ensures i == j
  {
    TenthCharacter(o.name, i);
    TenthCharacter(o.name, j);
  }

  ghost predicate Declared(o: ObjectRecord) {
    (o.kind.Deployment? || o.kind.StatefulSet?) && o.Key() in DIRECT_INVENTORY
  }

  /** The object's sole owner is a declared controller, or a ReplicaSet whose sole owner is one. */
  ghost predicate ReachesDeclared(o: ObjectRecord, objs: set<ObjectRecord>) {
    exists parent :: parent in objs && o.ControlledBy(parent)
      && (Declared(parent)
          || (parent.kind.ReplicaSet?
              && exists root :: root in objs && parent.ControlledBy(root) && Declared(root)))
  }

  lemma ChildOf(objs: set<ObjectRecord>, p: ChildPattern) returns (child: ObjectRecord, parent: ObjectRecord)
    requires ChildBound(objs, p)
    ensures child in objs && parent in objs && child.ControlledBy(parent)
    ensures parent.kind == p.ownerKind && NameMatches(parent.name, p.ownerName)
    ensures forall o :: o in objs ==> (Fits(o, p) <==> o == child)
  {
    var children, parents := Matching(objs, p.kind, p.name), Matching(objs, p.ownerKind, p.ownerName);
    child := Inhabitant(children);
    parent := Inhabitant(parents);
    Singleton(children, child);
    assert forall o :: o in objs ==> (Fits(o, p) <==> o in children);
  }

  lemma DirectIsDeclared(r: Receipt, o: ObjectRecord)
    requires DirectKeys(ByKey(r.objects).Keys) == DIRECT_INVENTORY
    requires o in r.objects && (o.kind.Deployment? || o.kind.StatefulSet?)
    ensures Declared(o)
  {
    hide DIRECT_INVENTORY;
    ByKeyHolds(r.objects);
    assert o.Key() in DirectKeys(ByKey(r.objects).Keys);
  }

  lemma PatternLinks(i: nat)
    requires i < |CHILDREN|
    ensures |CHILDREN| == 5
    ensures Dynamic(CHILDREN[i].kind)
    ensures CHILDREN[i].ownerKind in {Deployment, StatefulSet}
            || (&& i > 0
                && CHILDREN[i].ownerKind == CHILDREN[i - 1].kind == ReplicaSet
                && CHILDREN[i].ownerName == CHILDREN[i - 1].name
                && CHILDREN[i - 1].ownerKind == Deployment)
  {
  }

  lemma ChildReaches(r: Receipt, i: nat, o: ObjectRecord)
    requires DirectKeys(ByKey(r.objects).Keys) == DIRECT_INVENTORY
    requires ChildrenBound(Elements(r.objects), CHILDREN)
    requires i < |CHILDREN| && o in r.objects && Fits(o, CHILDREN[i])
    ensures ReachesDeclared(o, Elements(r.objects))
  {
    hide CHILDREN;
    hide DIRECT_INVENTORY;
    hide NameMatches;
    hide Declared;
    var objs := Elements(r.objects);
    PatternLinks(i);
    var child, parent := ChildOf(objs, CHILDREN[i]);
    if parent.kind.ReplicaSet? {
      var middle, root := ChildOf(objs, CHILDREN[i - 1]);
      assert Fits(parent, CHILDREN[i - 1]);
      DirectIsDeclared(r, root);
      assert root in objs && parent.ControlledBy(root) && Declared(root);
    } else {
      DirectIsDeclared(r, parent);
    }
    assert parent in objs && o.ControlledBy(parent);
  }

  ghost function Fitting(objs: set<ObjectRecord>, n: nat): set<ObjectRecord>
    requires n <= |CHILDREN|
  {
    set o | o in objs && FitsOne(o, CHILDREN[..n])
  }

  lemma FittingOneMore(objs: set<ObjectRecord>, n: nat, child: ObjectRecord)
    requires n < |CHILDREN| && child in objs
    requires forall o :: o in objs ==> (Fits(o, CHILDREN[n]) <==> o == child)
    ensures child !in Fitting(objs, n)
    ensures Fitting(objs, n + 1) == Fitting(objs, n) + {child}
  {
    hide CHILDREN;
    hide NameMatches;
    forall o ensures FitsOne(o, CHILDREN[..n + 1]) <==> FitsOne(o, CHILDREN[..n]) || Fits(o, CHILDREN[n]) {
      FitsOneMore(o, CHILDREN, n);
    }
    if child in Fitting(objs, n) {
      var i :| 0 <= i < n && Fits(child, CHILDREN[..n][i]);
      PatternsExclusive(child, i, n);
    }
  }

  lemma {:induction false} CountChildren(objs: set<ObjectRecord>, n: nat)
    requires n <= |CHILDREN| && forall i :: 0 <= i < n ==> ChildBound(objs, CHILDREN[i])
    ensures |Fitting(objs, n)| == n
  {
    hide CHILDREN;
    hide ChildBound;
    hide Fits;
    if n > 0 {
      CountChildren(objs, n - 1);
      var child, parent := ChildOf(objs, CHILDREN[n - 1]);
      FittingOneMore(objs, n - 1, child);
    } else {
      assert Fitting(objs, 0) == {};
    }
  }

  lemma BoundChildren(r: Receipt)
    requires DirectKeys(ByKey(r.objects).Keys) == DIRECT_INVENTORY
    requires ChildrenBound(Elements(r.objects), CHILDREN)
    ensures |set o | o in Elements(r.objects) && Dynamic(o.kind)| == 5
    ensures forall o :: o in r.objects && Dynamic(o.kind) ==> ReachesDeclared(o, Elements(r.objects))
  {
    hide CHILDREN;
    hide DIRECT_INVENTORY;
    hide NameMatches;
    hide ReachesDeclared;
    var objs := Elements(r.objects);
    PatternLinksAll();
    CountChildren(objs, |CHILDREN|);
    assert CHILDREN[..|CHILDREN|] == CHILDREN;
    assert (set o | o in objs && Dynamic(o.kind)) == Fitting(objs, |CHILDREN|);
    forall o | o in r.objects && Dynamic(o.kind) ensures ReachesDeclared(o, objs) {
      assert o in objs;
      var i :| 0 <= i < |CHILDREN| && Fits(o, CHILDREN[i]);
      ChildReaches(r, i, o);
    }
  }

  lemma PatternLinksAll()
    ensures |CHILDREN| == 5
    ensures forall i :: 0 <= i < |CHILDREN| ==> Dynamic(CHILDREN[i].kind)
  {
  }

  /** Five controller-created children, each one or two owner steps from a declared controller. */
  lemma FiveOwnedChildren(run: RunIdentity, r: Receipt, exp: Expectation)
    requires Accepts(run, r, exp)
    ensures |set o | o in Elements(r.objects) && Dynamic(o.kind)| == 5
    ensures forall o :: o in r.objects && Dynamic(o.kind) ==> ReachesDeclared(o, Elements(r.objects))
  {
    hide CHILDREN;
    hide DIRECT_INVENTORY;
    hide ReachesDeclared;
    hide ChildrenBound;
    hide DirectKeys;
    BoundChildren(r);
  }

  lemma {:induction false} UidCount(run: RunIdentity, reserved: set<string>, objects: seq<ObjectRecord>)
    requires ObjectsAdmissible(run, reserved, objects)
    ensures |UidsOf(objects)| == |objects| && UidsOf(objects) !! reserved
  {
    hide Admissible;
    if objects != [] {
      UidCount(run, reserved, objects[..|objects| - 1]);
    }
  }

  lemma UidsWithStorage(run: RunIdentity, reserved: set<string>, objects: seq<ObjectRecord>, st: Storage)
    requires ObjectsAdmissible(run, reserved, objects) && StorageUidsNew(st, reserved + UidsOf(objects))
    ensures var uids := UidsOf(objects) + {st.volumeUid, st.storageClassUid, st.localityNodeUid};
            |uids| == |objects| + 3 && uids !! reserved
  {
    hide ObjectsAdmissible;
    hide UidsOf;
    UidCount(run, reserved, objects);
    var extra := {st.volumeUid, st.storageClassUid, st.localityNodeUid};
    assert UidsOf(objects) !! extra;
    assert |UidsOf(objects) + extra| == |UidsOf(objects)| + |extra|;
  }

  /** Objects, volume, StorageClass and node carry pairwise different UIDs, none of them a parent's. */
  lemma AllUidsDistinct(run: RunIdentity, r: Receipt, exp: Expectation)
    requires Accepts(run, r, exp)
    ensures var uids := UidsOf(r.objects) + {r.storage.volumeUid, r.storage.storageClassUid, r.storage.localityNodeUid};
            |uids| == |r.objects| + 3 && r.clusterUid !in uids && r.namespaceUid !in uids
  {
    hide ObjectsAdmissible;
    hide ChildrenBound;
    hide ImagesAdmissible;
    hide TargetsRun;
    hide ClusterImagesLocked;
    hide StorageComplete;
    hide StorageAsDeclared;
    hide ClaimOwned;
    hide StorageUidsNew;
    hide UidsOf;
    hide DIRECT_INVENTORY;
    UidsWithStorage(run, {r.clusterUid, r.namespaceUid}, r.objects, r.storage);
  }

  lemma AdmissibleRole(m: Image, objs: set<ObjectRecord>, exp: Expectation)
    requires ImageAdmissible(m, objs, exp)
    ensures m.role in exp.images && m.digest == exp.images[m.role]
    ensures exists o :: o in objs && RunsRole(o, m)
  {
    hide RunsRole;
    var o := Inhabitant(PodsRunning(objs, m));
  }

  lemma {:induction false} ImageRolesHold(images: seq<Image>)
    ensures forall m :: m in images ==> m.role in ImageRoles(images)
    ensures forall role :: role in ImageRoles(images) ==> exists m :: m in images && m.role == role
  {
    if images != [] {
      var earlier, last := images[..|images| - 1], images[|images| - 1];
      ImageRolesHold(earlier);
      assert images == earlier + [last];
      assert last in images;
    }
  }

  lemma {:induction false} ImageRoleCount(images: seq<Image>, objs: set<ObjectRecord>, exp: Expectation)
    requires ImagesAdmissible(images, objs, exp)
    ensures |ImageRoles(images)| == |images| && ImageRoles(images) <= exp.images.Keys
  {
    hide ImageAdmissible;
    if images != [] {
      ImageRoleCount(images[..|images| - 1], objs, exp);
      AdmissibleRole(images[|images| - 1], objs, exp);
    }
  }

  lemma {:induction false} ImagesUnique(images: seq<Image>, objs: set<ObjectRecord>, exp: Expectation)
    requires ImagesAdmissible(images, objs, exp)
    ensures DistinctBy(images, (m: Image) => m.role)
    ensures forall m :: m in images ==> ImageAdmissible(m, objs, exp)
  {
    hide ImageAdmissible;
    if images != [] {
      var earlier, last := images[..|images| - 1], images[|images| - 1];
      ImagesUnique(earlier, objs, exp);
      ImageRolesHold(earlier);
      assert images == earlier + [last];
    }
  }

  lemma ImageOfRole(images: seq<Image>, objs: set<ObjectRecord>, exp: Expectation, role: string)
    requires ImagesAdmissible(images, objs, exp) && |images| == |exp.images.Keys| && role in exp.images
    ensures exists m :: m in images && m.role == role && m.digest == exp.images[role]
              && (exists o :: o in objs && RunsRole(o, m))
              && forall n :: n in images && n.role == role ==> n == m
  {
    hide *;
    ImageRolesHold(images);
    ImageRoleCount(images, objs, exp);
    ImagesUnique(images, objs, exp);
    SameSizeSubset(ImageRoles(images), exp.images.Keys);
    var m :| m in images && m.role == role;
    AdmissibleRole(m, objs, exp);
    forall n | n in images && n.role == role ensures n == m {
      DistinctByMember(images, (i: Image) => i.role, n, m);
    }
  }

  /** Each serving role has exactly one image, with the locked digest, in a Pod of that role. */
  lemma OneImagePerRole(run: RunIdentity, r: Receipt, exp: Expectation, role: string)
    requires Accepts(run, r, exp) && role in SERVING_ROLES
    ensures exists m :: m in r.images && m.role == role && m.digest == exp.images[role]
              && (exists o :: o in Elements(r.objects) && RunsRole(o, m))
              && forall n :: n in r.images && n.role == role ==> n == m
  {
    hide ObjectsAdmissible;
    hide ChildrenBound;
    hide ImagesAdmissible;
    hide TargetsRun;
    hide ClusterImagesLocked;
    hide StorageContract;
    hide RunsRole;
    hide DIRECT_INVENTORY;
    ImageOfRole(r.images, Elements(r.objects), exp, role);
  }

  // ----- order independence -----

  lemma {:induction false} AdmissibleConverse(run: RunIdentity, reserved: set<string>, objects: seq<ObjectRecord>)
    requires UniqueKeys(objects) && UniqueUids(objects)
    requires forall o :: o in objects ==> Admissible(o, run) && o.uid !in reserved
    ensures ObjectsAdmissible(run, reserved, objects)
  {
    hide Admissible;
    if objects != [] {
      var earlier, last := objects[..|objects| - 1], objects[|objects| - 1];
      AdmissibleConverse(run, reserved, earlier);
      ByKeyHolds(earlier);
      UidsOfHolds(earlier);
    }
  }

  lemma PermutedObjects(run: RunIdentity, reserved: set<string>, a: seq<ObjectRecord>, b: seq<ObjectRecord>)
    requires ObjectsAdmissible(run, reserved, a) && multiset(a) == multiset(b)
    ensures ObjectsAdmissible(run, reserved, b)
    ensures ByKey(a) == ByKey(b) && UidsOf(a) == UidsOf(b) && Elements(a) == Elements(b)
  {
    hide Admissible;
    AdmissibleObjects(run, reserved, a);
    SameElements(a, b);
    DistinctByPermutation(a, b, (o: ObjectRecord) => o.Key());
    DistinctByPermutation(a, b, (o: ObjectRecord) => o.uid);
    assert UniqueKeys(b) && UniqueUids(b);
    AdmissibleConverse(run, reserved, b);
    ByKeyHolds(a);
    ByKeyHolds(b);
    UidsOfHolds(a);
    UidsOfHolds(b);
    assert ByKey(a).Keys == ByKey(b).Keys;
  }

  lemma {:induction false} ImagesConverse(images: seq<Image>, objs: set<ObjectRecord>, exp: Expectation)
    requires DistinctBy(images, (m: Image) => m.role)
    requires forall m :: m in images ==> ImageAdmissible(m, objs, exp)
    ensures ImagesAdmissible(images, objs, exp)
  {
    hide ImageAdmissible;
    if images != [] {
      var earlier, last := images[..|images| - 1], images[|images| - 1];
      ImagesConverse(earlier, objs, exp);
      ImageRolesHold(earlier);
    }
  }

  lemma PermutedImages(a: seq<Image>, b: seq<Image>, objs: set<ObjectRecord>, exp: Expectation)
    requires ImagesAdmissible(a, objs, exp) && multiset(a) == multiset(b)
    ensures ImagesAdmissible(b, objs, exp) && |a| == |b|
  {
    hide ImageAdmissible;
    ImagesUnique(a, objs, exp);
    SameElements(a, b);
    DistinctByPermutation(a, b, (m: Image) => m.role);
    ImagesConverse(b, objs, exp);
  }

  /** The same evidence, listed in any order. */
  ghost predicate SameEvidence(a: Receipt, b: Receipt) {
    && a.(objects := [], images := []) == b.(objects := [], images := [])
    && multiset(a.objects) == multiset(b.objects)
    && multiset(a.images) == multiset(b.images)
  }

  /** The verdict does not depend on the order of objects and images. */
  lemma VerdictIgnoresOrder(run: RunIdentity, a: Receipt, b: Receipt, exp: Expectation)
    requires SameEvidence(a, b)
    ensures Accepts(run, a, exp) <==> Accepts(run, b, exp)
  {
    if Accepts(run, a, exp) {
      ReorderedAccepts(run, a, b, exp);
    }
    if Accepts(run, b, exp) {
      ReorderedAccepts(run, b, a, exp);
    }
  }

  lemma ReorderedAccepts(run: RunIdentity, a: Receipt, b: Receipt, exp: Expectation)
    requires SameEvidence(a, b) && Accepts(run, a, exp)
    ensures Accepts(run, b, exp)
  {
    hide ObjectsAdmissible;
    hide ChildrenBound;
    hide ImagesAdmissible;
    hide StorageContract;
    hide RunIdentity.RunLabels;
    hide DirectKeys;
    PermutedObjects(run, {a.clusterUid, a.namespaceUid}, a.objects, b.objects);
    PermutedImages(a.images, b.images, Elements(a.objects), exp);
    SameFields(a, b);
  }

  lemma SameFields(a: Receipt, b: Receipt)
    requires SameEvidence(a, b)
    ensures a.profile == b.profile && a.context == b.context && a.clusterUid == b.clusterUid
    ensures a.namespace == b.namespace && a.namespaceUid == b.namespaceUid
    ensures a.namespaceLabels == b.namespaceLabels && a.storage == b.storage && a.clusterImages == b.clusterImages
  {
    var x, y := a.(objects := [], images := []), b.(objects := [], images := []);
    assert x.profile == y.profile && x.context == y.context && x.clusterUid == y.clusterUid;
    assert x.namespace == y.namespace && x.namespaceUid == y.namespaceUid;
    assert x.namespaceLabels == y.namespaceLabels && x.storage == y.storage && x.clusterImages == y.clusterImages;
  }

  // ----- comparison with live identities -----

  function ByRole(images: seq<Image>): map<string, Image> {
    if images == [] then map[]
    else
      var last := images[|images| - 1];
      ByRole(images[..|images| - 1])[last.role := last]
  }

  method AssertReceiptMatchesLive(run: RunIdentity, recorded: Receipt, live: Receipt, exp: Expectation) returns (v: Verdict)
    ensures v.Accepted? <==> Accepts(run, recorded, exp) && SameEvidence(recorded, live)
  {
    hide Accepts;
    v := ValidateRuntimeReceipt(run, recorded, exp);
    if v.Refused? {
      return;
    }
    v := ValidateRuntimeReceipt(run, live, exp);
    if v.Refused? {
      if SameEvidence(recorded, live) {
        VerdictIgnoresOrder(run, recorded, live, exp);
      }
      return;
    }
    ComparisonIsPermutation(run, recorded, live, exp);
    if || recorded.(objects := [], images := []) != live.(objects := [], images := [])
       || ByKey(recorded.objects) != ByKey(live.objects)
       || ByRole(recorded.images) != ByRole(live.images)
    {
      return Refused("live identities do not match the recorded ownership receipt");
    }
  }

  lemma {:induction false} ByRoleHolds(images: seq<Image>)
    requires DistinctBy(images, (m: Image) => m.role)
    ensures forall m :: m in images ==> m.role in ByRole(images) && ByRole(images)[m.role] == m
    ensures forall k :: k in ByRole(images) ==> ByRole(images)[k] in images && ByRole(images)[k].role == k
  {
    if images != [] {
      var earlier, last := images[..|images| - 1], images[|images| - 1];
      ByRoleHolds(earlier);
      assert images == earlier + [last];
    }
  }

  /** On accepted receipts, equal dictionaries are exactly permuted lists. */
  lemma ComparisonIsPermutation(run: RunIdentity, a: Receipt, b: Receipt, exp: Expectation)
    requires Accepts(run, a, exp) && Accepts(run, b, exp)
    ensures ByKey(a.objects) == ByKey(b.objects) <==> multiset(a.objects) == multiset(b.objects)
    ensures ByRole(a.images) == ByRole(b.images) <==> multiset(a.images) == multiset(b.images)
  {
    ObjectDictionaries(run, {a.clusterUid, a.namespaceUid}, {b.clusterUid, b.namespaceUid}, a.objects, b.objects);
    ImageDictionaries(a.images, b.images, Elements(a.objects), Elements(b.objects), exp);
  }

  lemma ObjectDictionaries(run: RunIdentity, ra: set<string>, rb: set<string>, a: seq<ObjectRecord>, b: seq<ObjectRecord>)
    requires ObjectsAdmissible(run, ra, a) && ObjectsAdmissible(run, rb, b)
    ensures ByKey(a) == ByKey(b) <==> multiset(a) == multiset(b)
  {
    hide Admissible;
    AdmissibleObjects(run, ra, a);
    AdmissibleObjects(run, rb, b);
    ObservedValues(run, ra, a);
    ObservedValues(run, rb, b);
    assert Distinct(a) && Distinct(b);
    DistinctPermutation(a, b);
    if multiset(a) == multiset(b) {
      PermutedObjects(run, ra, a, b);
    }
  }

  lemma ImageDictionaries(a: seq<Image>, b: seq<Image>, oa: set<ObjectRecord>, ob: set<ObjectRecord>, exp: Expectation)
    requires ImagesAdmissible(a, oa, exp) && ImagesAdmissible(b, ob, exp)
    ensures ByRole(a) == ByRole(b) <==> multiset(a) == multiset(b)
  {
    hide ImageAdmissible;
    ImagesUnique(a, oa, exp);
    ImagesUnique(b, ob, exp);
    ByRoleHolds(a);
    ByRoleHolds(b);
    assert Distinct(a) && Distinct(b);
    DistinctPermutation(a, b);
    if ByRole(a) == ByRole(b) {
      assert forall m :: m in a <==> m in b;
    }
    if multiset(a) == multiset(b) {
      SameElements(a, b);
      assert ByRole(a).Keys == ByRole(b).Keys;
    }
  }

  /** Matching is an equivalence relation on accepted receipts. */
  lemma MatchingIsAnEquivalence(run: RunIdentity, a: Receipt, b: Receipt, c: Receipt, exp: Expectation)
    requires Accepts(run, a, exp)
    ensures SameEvidence(a, a)
    ensures SameEvidence(a, b) ==> Accepts(run, b, exp) && SameEvidence(b, a)
    ensures SameEvidence(a, b) && SameEvidence(b, c) ==> SameEvidence(a, c)
  {
    hide Accepts;
    if SameEvidence(a, b) {
      VerdictIgnoresOrder(run, a, b, exp);
    }
  }
}
