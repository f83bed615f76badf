/**
 The pipeline checks can be met: for every run and every usable lock there is a receipt they accept, and no
 other lock has one. The receipt lists the declared objects first and one Pod for each Job and StatefulSet
 after them; each UID is a run of one letter, longer than the cluster's UID by the object's place in the list,
 so that all of them differ from each other and from the cluster's.
 */
module PipelineExample {
  import opened Wrappers
  import opened Collections
  import opened Ownership
  import opened PipelineReceipt

  /** What a lock must say for a receipt to be acceptable at all. */
  predicate Usable(lock: Lock) {
    && lock.complete && lock.clusterUid != "" && lock.storageClassUid != ""
    && forall i :: 0 <= i < |ROLES| ==> ROLES[i] in lock.images && Pinned(lock.images[ROLES[i]])
  }

  predicate Pinned(image: LockedImage) {
    '@' in image.reference && DigestPart(image.reference) == image.digest
  }

  /** Pairwise different UIDs, all longer than the cluster's. */
  function Uid(lock: Lock, i: nat): string {
    seq(|lock.clusterUid| + 1 + i, _ => 'u')
  }

  // ----- the objects: the direct ones, then one Pod for each workload -----

  function PodName(w: Key): string {
    w.1 + if w.0.Job? then "-x" else "-0"
  }

  ghost function Direct(run: RunIdentity): seq<Key> {
    Listing(ExpectedDirect(run))
  }

  ghost function Controllers(run: RunIdentity): seq<Key> {
    Listing(Workloads(run))
  }

  ghost function Pods(run: RunIdentity): seq<Key> {
    seq(|Controllers(run)|, i requires 0 <= i < |Controllers(run)| => (Pod, PodName(Controllers(run)[i])))
  }

  ghost function Keys(run: RunIdentity): seq<Key> {
    Direct(run) + Pods(run)
  }

  ghost function UidAt(run: RunIdentity, lock: Lock, key: Key): string {
    Uid(lock, 1 + IndexOf(Keys(run), key))
  }

  ghost function OwnersAt(run: RunIdentity, lock: Lock, i: nat): seq<Owner>
    requires i < |Keys(run)|
  {
    if i < |Direct(run)| then []
    else
      var w := Controllers(run)[i - |Direct(run)|];
      [Owner(w.0, w.1, UidAt(run, lock, w), true)]
  }

  function ExampleLabels(run: RunIdentity): Labels {
    map["it4931.instacart.edu/component" := "pipeline"] + run.RunLabels()
  }

  ghost function Object(run: RunIdentity, lock: Lock, i: nat): ObjectRecord
    requires i < |Keys(run)|
  {
    ObjectRecord(Keys(run)[i].0, Keys(run)[i].1, run.Namespace(), Uid(lock, 1 + i), ExampleLabels(run), OwnersAt(run, lock, i))
  }

  ghost function Objects(run: RunIdentity, lock: Lock): seq<ObjectRecord> {
    seq(|Keys(run)|, i requires 0 <= i < |Keys(run)| => Object(run, lock, i))
  }

  lemma PodNameInjective(a: Key, b: Key)
    requires (a.0.Job? || a.0.StatefulSet?) && (b.0.Job? || b.0.StatefulSet?) && PodName(a) == PodName(b)
    ensures a == b
  {
    var name := PodName(a);
    assert name[|name| - 1] == (if a.0.Job? then 'x' else '0') == (if b.0.Job? then 'x' else '0');
    assert name[..|name| - 2] == a.1 && name[..|name| - 2] == b.1;
  }

  lemma KeyedHolds(kind: Kind, names: set<string>)
    ensures forall k :: k in Keyed(kind, names) <==> k.0 == kind && k.1 in names
  {
  }

  lemma WorkloadsHold(run: RunIdentity)
    ensures forall w :: w in Workloads(run) <==> (w.0.Job? && w.1 in JobNames(run)) || (w.0.StatefulSet? && w.1 in STATEFUL_NAMES)
  {
    hide JobNames, STATEFUL_NAMES, Keyed;
    KeyedHolds(Job, JobNames(run));
    KeyedHolds(StatefulSet, STATEFUL_NAMES);
  }

  lemma ExpectedDirectHolds(run: RunIdentity)
    ensures forall w :: w in Workloads(run) ==> w in ExpectedDirect(run)
    ensures forall name :: name in CLAIMS ==> (PersistentVolumeClaim, name) in ExpectedDirect(run)
    ensures forall k :: k in ExpectedDirect(run) ==> !k.0.Pod?
  {
    hide JobNames, STATEFUL_NAMES, CLAIMS, SERVICE_NAMES, POLICY_NAMES, CONFIG_NAMES, ACCOUNT_NAMES, Keyed;
    KeyedHolds(Job, JobNames(run));
    KeyedHolds(StatefulSet, STATEFUL_NAMES);
    KeyedHolds(ConfigMap, CONFIG_NAMES);
    KeyedHolds(ServiceAccount, ACCOUNT_NAMES);
    KeyedHolds(PersistentVolumeClaim, CLAIMS.Keys);
    KeyedHolds(Service, SERVICE_NAMES);
    KeyedHolds(NetworkPolicy, POLICY_NAMES);
  }

  lemma ControllersHold(run: RunIdentity)
    ensures Distinct(Controllers(run)) && |Controllers(run)| == 9
    ensures forall w :: w in Controllers(run) <==> w in Workloads(run)
    ensures forall w :: w in Workloads(run) ==> (w.0.Job? || w.0.StatefulSet?) && w in ExpectedDirect(run)
    ensures forall w :: w in Workloads(run) ==> if w.0.Job? then w.1 in JobNames(run) else w.1 in STATEFUL_NAMES
  {
    hide JobNames, STATEFUL_NAMES, Workloads, ExpectedDirect;
    ListingHolds(Workloads(run));
    NineWorkloads(run);
    WorkloadsHold(run);
    ExpectedDirectHolds(run);
  }

  lemma DirectHolds(run: RunIdentity)
    ensures Distinct(Direct(run))
    ensures forall k :: k in Direct(run) <==> k in ExpectedDirect(run)
    ensures forall k :: k in ExpectedDirect(run) ==> !k.0.Pod?
  {
    hide ExpectedDirect;
    ListingHolds(ExpectedDirect(run));
    ExpectedDirectHolds(run);
  }

  lemma KeysDistinct(run: RunIdentity)
    ensures Distinct(Keys(run)) && |Keys(run)| == |Direct(run)| + 9 == |Direct(run)| + |Pods(run)|
    ensures forall i :: 0 <= i < |Direct(run)| ==> Keys(run)[i] in ExpectedDirect(run) && !Keys(run)[i].0.Pod?
    ensures forall i :: 0 <= i < 9 ==> Keys(run)[|Direct(run)| + i] == (Pod, PodName(Controllers(run)[i]))
  {
    hide ExpectedDirect, Workloads, PodName, Direct, Controllers;
    ControllersHold(run);
    DirectHolds(run);
    var direct, pods := Direct(run), Pods(run);
    forall i | 0 <= i < |direct| ensures Keys(run)[i] in ExpectedDirect(run) {
      assert Keys(run)[i] == direct[i] && direct[i] in direct;
    }
    forall i, j | 0 <= i < j < |pods| ensures pods[i] != pods[j] {
      assert Controllers(run)[i] in Controllers(run) && Controllers(run)[j] in Controllers(run);
      if PodName(Controllers(run)[i]) == PodName(Controllers(run)[j]) {
        PodNameInjective(Controllers(run)[i], Controllers(run)[j]);
      }
    }
  }

  lemma ObjectsListed(run: RunIdentity, lock: Lock)
    ensures |Objects(run, lock)| == |Keys(run)|
    ensures forall i :: 0 <= i < |Keys(run)| ==> Objects(run, lock)[i] == Object(run, lock, i)
    ensures forall o :: o in Objects(run, lock) ==> exists i :: 0 <= i < |Keys(run)| && o == Object(run, lock, i)
  {
    hide Object, Keys;
  }

  lemma ObjectFields(run: RunIdentity, lock: Lock, i: nat)
    requires i < |Keys(run)|
    ensures var o := Object(run, lock, i);
            o.Key() == Keys(run)[i] && o.uid == Uid(lock, 1 + i) && |o.uid| == |lock.clusterUid| + 2 + i
            && o.namespace == run.Namespace() && o.labels == ExampleLabels(run) && o.owners == OwnersAt(run, lock, i)
  {
  }

  lemma ObjectsUnique(run: RunIdentity, lock: Lock)
    ensures UniqueKeys(Objects(run, lock)) && UniqueUids(Objects(run, lock))
  {
    hide Object, Keys, Objects, Uid;
    KeysDistinct(run);
    ObjectsListed(run, lock);
    forall i, j | 0 <= i < j < |Keys(run)|
      ensures Object(run, lock, i).Key() != Object(run, lock, j).Key() && Object(run, lock, i).uid != Object(run, lock, j).uid
    {
      ObjectFields(run, lock, i);
      ObjectFields(run, lock, j);
      assert Keys(run)[i] != Keys(run)[j];
    }
  }

  ghost function At(run: RunIdentity, lock: Lock, key: Key): ObjectRecord
    requires key in Keys(run)
  {
    IndexHolds(Keys(run), key);
    Object(run, lock, IndexOf(Keys(run), key))
  }

  lemma AtHolds(run: RunIdentity, lock: Lock, key: Key)
    requires key in Keys(run)
    ensures At(run, lock, key) in Objects(run, lock) && At(run, lock, key).Key() == key && At(run, lock, key).uid == UidAt(run, lock, key)
    ensures key in ByKey(Objects(run, lock)) && ByKey(Objects(run, lock))[key] == At(run, lock, key)
  {
    hide Keys, Objects, Object, Uid;
    IndexHolds(Keys(run), key);
    ObjectsListed(run, lock);
    ObjectFields(run, lock, IndexOf(Keys(run), key));
    ByKeyHolds(Objects(run, lock));
    ObjectsUnique(run, lock);
    assert Objects(run, lock)[IndexOf(Keys(run), key)] in Objects(run, lock);
  }

  // ----- inventory -----

  lemma {:induction false} ByKeySize(objects: seq<ObjectRecord>)
    requires UniqueKeys(objects)
    ensures |ByKey(objects)| == |objects|
  {
    if objects != [] {
      var earlier, last := objects[..|objects| - 1], objects[|objects| - 1];
      ByKeySize(earlier);
      ByKeyHolds(earlier);
      assert last.Key() !in ByKey(earlier);
    }
  }

  lemma {:induction false} UidsSize(objects: seq<ObjectRecord>)
    requires UniqueUids(objects)
    ensures |UidsOf(objects)| == |objects|
  {
    if objects != [] {
      var earlier, last := objects[..|objects| - 1], objects[|objects| - 1];
      UidsSize(earlier);
      assert objects == earlier + [last];
      assert UidsOf(objects) == UidsOf(earlier) + {last.uid};
    }
  }

  ghost function Example(run: RunIdentity, lock: Lock, storage: seq<Storage>, images: seq<Image>): Receipt {
    Receipt(1, run.Profile(), run.Profile(), lock.clusterUid, run.Namespace(), Uid(lock, 0), run.RunLabels(), Objects(run, lock),
            map name | name in JobNames(run) :: JobStatus(1, 0), storage, images)
  }

  lemma UidsLong(run: RunIdentity, lock: Lock)
    ensures forall u :: u in UidsOf(Objects(run, lock)) ==> |u| > |lock.clusterUid| + 1
  {
    hide Objects, Keys, Object, JobNames, ROLES;
    ObjectsListed(run, lock);
    forall o | o in Objects(run, lock) ensures |o.uid| > |lock.clusterUid| + 1 {
      var i :| 0 <= i < |Keys(run)| && o == Object(run, lock, i);
      ObjectFields(run, lock, i);
    }
  }

  lemma TwoMore(uids: set<string>, a: string, b: string)
    requires a != b && a !in uids && b !in uids
    ensures |{a, b} + uids| == |uids| + 2
  {
    assert {a, b} + uids == uids + {a} + {b};
  }

  lemma InventoryFine(run: RunIdentity, lock: Lock, storage: seq<Storage>, images: seq<Image>)
    requires Usable(lock)
    ensures InventoryDistinct(Example(run, lock, storage, images))
  {
    hide Objects, Uid, UidsOf, ByKey, ROLES;
    var objects := Objects(run, lock);
    ObjectsUnique(run, lock);
    ByKeySize(objects);
    UidsSize(objects);
    UidsLong(run, lock);
    UidLength(lock, 0);
    TwoMore(UidsOf(objects), lock.clusterUid, Uid(lock, 0));
  }

  lemma DirectFine(run: RunIdentity, lock: Lock, storage: seq<Storage>, images: seq<Image>)
    ensures DirectComplete(run, Example(run, lock, storage, images))
  {
    hide Objects, Keys, Object, JobNames, ExpectedDirect, Workloads, Direct, Controllers;
    var objects := Objects(run, lock);
    KeysDistinct(run);
    DirectHolds(run);
    ByKeyHolds(objects);
    ObjectsListed(run, lock);
    forall k ensures k in NonPods(ByKey(objects).Keys) <==> k in ExpectedDirect(run) {
      if k in ByKey(objects) && !k.0.Pod? {
        var o := ByKey(objects)[k];
        var i :| 0 <= i < |Keys(run)| && o == Object(run, lock, i);
        ObjectFields(run, lock, i);
        DirectOrPod(run, i);
      }
      if k in ExpectedDirect(run) {
        DirectKey(run, k);
        AtHolds(run, lock, k);
      }
    }
  }

  lemma DirectOrPod(run: RunIdentity, i: nat)
    requires i < |Keys(run)|
    ensures Keys(run)[i] in ExpectedDirect(run) || Keys(run)[i].0.Pod?
  {
    hide ExpectedDirect, Direct, Controllers;
    KeysDistinct(run);
    if i >= |Direct(run)| {
      assert Keys(run)[|Direct(run)| + (i - |Direct(run)|)].0.Pod?;
    }
  }

  lemma DirectKey(run: RunIdentity, k: Key)
    requires k in ExpectedDirect(run)
    ensures k in Keys(run)
  {
    hide ExpectedDirect, Pods;
    DirectHolds(run);
  }

  // ----- owners -----

  lemma LabelsFine(run: RunIdentity)
    ensures Carries(ExampleLabels(run), run.RunLabels())
    ensures LabelIs(ExampleLabels(run), "it4931.instacart.edu/component", "pipeline")
  {
    var a, b, c := "it4931.instacart.edu/owner", "it4931.instacart.edu/run-id", "app.kubernetes.io/managed-by";
    var d := "it4931.instacart.edu/component";
    assert a[21] == 'o' && b[21] == 'r' && c[0] == 'a' && d[21] == 'c' && d[0] == 'i';
  }

  /** The i-th Pod belongs to the i-th controller. */
  lemma PodAt(run: RunIdentity, lock: Lock, i: nat)
    requires i < 9
    ensures |Controllers(run)| == 9 && |Keys(run)| == |Direct(run)| + 9
    ensures var pod, w := Object(run, lock, |Direct(run)| + i), Controllers(run)[i];
            && pod.kind.Pod? && pod.name == PodName(w) && pod.owners == [Owner(w.0, w.1, UidAt(run, lock, w), true)]
            && pod in Objects(run, lock) && PodOf(pod, w)
            && w in Workloads(run) && w in Keys(run)
  {
    hide Keys, Objects, UidAt, PodName, Uid, Direct, Workloads, ExpectedDirect;
    KeysDistinct(run);
    ControllersHold(run);
    ObjectsListed(run, lock);
    ObjectFields(run, lock, |Direct(run)| + i);
    var w := Controllers(run)[i];
    assert w in Controllers(run);
    DirectKey(run, w);
    assert Objects(run, lock)[|Direct(run)| + i] in Objects(run, lock);
  }

  lemma EveryPodIsAt(run: RunIdentity, lock: Lock, o: ObjectRecord) returns (i: nat)
    requires o in Objects(run, lock) && o.kind.Pod?
    ensures i < 9 && |Keys(run)| == |Direct(run)| + 9 && o == Object(run, lock, |Direct(run)| + i)
  {
    hide Keys, Objects, Object, Direct;
    KeysDistinct(run);
    ObjectsListed(run, lock);
    var j :| 0 <= j < |Keys(run)| && o == Object(run, lock, j);
    ObjectFields(run, lock, j);
    assert o.kind == Keys(run)[j].0;
    i := j - |Direct(run)|;
  }

  lemma CheckedFine(run: RunIdentity, lock: Lock, o: ObjectRecord)
    requires o in Objects(run, lock)
    ensures ObjectChecked(run, o, ByKey(Objects(run, lock)))
  {
    hide Keys, Objects, Object, UidAt, Uid, Direct, Workloads, Controllers, JobNames, STATEFUL_NAMES, LabelIs, Carries, ExampleLabels;
    ObjectsListed(run, lock);
    LabelsFine(run);
    var j :| 0 <= j < |Keys(run)| && o == Object(run, lock, j);
    ObjectFields(run, lock, j);
    if o.kind.Pod? {
      var i := EveryPodIsAt(run, lock, o);
      PodAt(run, lock, i);
      ControllersHold(run);
      AtHolds(run, lock, Controllers(run)[i]);
    }
  }

  ghost predicate OwnersDistinct(objects: seq<ObjectRecord>) {
    forall i, j :: 0 <= i < j < |objects| && objects[i].kind.Pod? && objects[j].kind.Pod? ==>
      |objects[i].owners| == 1 && |objects[j].owners| == 1 ==> OwnerKey(objects[i]) != OwnerKey(objects[j])
  }

  lemma OwnedBefore(objects: seq<ObjectRecord>, k: Key) returns (i: nat)
    requires k in PodsByOwner(objects) && |PodsByOwner(objects)[k]| == 1
    ensures i < |objects| && PodOf(objects[i], k)
  {
    PodsByOwnerHolds(objects);
    var o := PodsByOwner(objects)[k][0];
    assert o in PodsByOwner(objects)[k];
    assert o in objects && PodOf(o, k);
    i :| 0 <= i < |objects| && objects[i] == o;
  }

  /** If no two Pods share an owner, every owner has one. */
  lemma {:induction false} SinglePods(objects: seq<ObjectRecord>)
    requires OwnersDistinct(objects)
    ensures forall k :: k in PodsByOwner(objects) ==> |PodsByOwner(objects)[k]| == 1
  {
    if objects != [] {
      var earlier, last := objects[..|objects| - 1], objects[|objects| - 1];
      SinglePods(earlier);
      if last.kind.Pod? && |last.owners| == 1 && OwnerKey(last) in PodsByOwner(earlier) {
        var i := OwnedBefore(earlier, OwnerKey(last));
        assert false;
      }
    }
  }

  lemma PodsFine(run: RunIdentity, lock: Lock)
    ensures OnePodEach(PodsByOwner(Objects(run, lock)), Workloads(run))
  {
    hide Keys, Objects, Object, UidAt, Uid, Direct, Workloads, ExpectedDirect, Controllers, PodsByOwner, OwnersDistinct, STATEFUL_NAMES, JobNames;
    var objects := Objects(run, lock);
    ControllersHold(run);
    ObjectsListed(run, lock);
    AllOwnersDiffer(run, lock);
    SinglePods(objects);
    forall k | k in PodsByOwner(objects) ensures k in Workloads(run) {
      var i := OwnedBefore(objects, k);
      var j := EveryPodIsAt(run, lock, objects[i]);
      PodAt(run, lock, j);
    }
    forall k | k in Workloads(run) ensures k in PodsByOwner(objects) {
      var i :| 0 <= i < |Controllers(run)| && Controllers(run)[i] == k;
      PodAt(run, lock, i);
      PodsByOwnerHolds(objects);
    }
  }

  lemma AllOwnersDiffer(run: RunIdentity, lock: Lock)
    ensures OwnersDistinct(Objects(run, lock))
  {
    hide Objects;
    var objects := Objects(run, lock);
    forall i, j | 0 <= i < j < |objects| && objects[i].kind.Pod? && objects[j].kind.Pod?
      ensures |objects[i].owners| == 1 && |objects[j].owners| == 1 && OwnerKey(objects[i]) != OwnerKey(objects[j])
    {
      OwnersDiffer(run, lock, i, j);
    }
  }

  lemma OwnersDiffer(run: RunIdentity, lock: Lock, i: nat, j: nat)
    requires i < j < |Objects(run, lock)| && Objects(run, lock)[i].kind.Pod? && Objects(run, lock)[j].kind.Pod?
    ensures |Objects(run, lock)[i].owners| == 1 && |Objects(run, lock)[j].owners| == 1
    ensures OwnerKey(Objects(run, lock)[i]) != OwnerKey(Objects(run, lock)[j])
  {
    hide Keys, Objects, Object, UidAt, Uid, Direct, Workloads, Controllers;
    ObjectsListed(run, lock);
    ObjectsUnique(run, lock);
    ControllersHold(run);
    var a := EveryPodIsAt(run, lock, Objects(run, lock)[i]);
    var b := EveryPodIsAt(run, lock, Objects(run, lock)[j]);
    PodAt(run, lock, a);
    PodAt(run, lock, b);
    assert Objects(run, lock)[i].uid != Objects(run, lock)[j].uid;
    assert a != b;
    assert Controllers(run)[a] != Controllers(run)[b];
  }

  // ----- storage -----

  ghost function Claims(): seq<string> {
    Listing(CLAIMS.Keys)
  }

  lemma ClaimKey(run: RunIdentity, name: string)
    requires name in CLAIMS
    ensures (PersistentVolumeClaim, name) in Keys(run)
  {
    hide CLAIMS, Keys;
    ExpectedDirectHolds(run);
    DirectKey(run, (PersistentVolumeClaim, name));
  }

  ghost function StorageAt(run: RunIdentity, lock: Lock, storageClass: string, i: nat): Storage
    requires i < |Claims()|
  {
    ListingHolds(CLAIMS.Keys);
    var name := Claims()[i];
    ClaimKey(run, name);
    var uid := At(run, lock, (PersistentVolumeClaim, name)).uid;
    Storage(name, uid, CLAIMS[name].0, CLAIMS[name].1, "ReadWriteOnce", Uid(lock, i), Uid(lock, i), run.Namespace(), name, uid,
            storageClass, lock.storageClassUid, lock.provisioner, "hostPath", "/tmp/hostpath-provisioner/v", "k", "k", true, [])
  }

  ghost function Storages(run: RunIdentity, lock: Lock, storageClass: string): seq<Storage> {
    seq(|Claims()|, i requires 0 <= i < |Claims()| => StorageAt(run, lock, storageClass, i))
  }

  lemma StorageFine(run: RunIdentity, lock: Lock, storageClass: string)
    requires Usable(lock) && storageClass != ""
    ensures StorageValid(run, Storages(run, lock, storageClass), ByKey(Objects(run, lock)), lock)
  {
    hide CLAIMS, Keys, Objects, Object, At, Uid, Usable, ByKey, StorageLocked, Storages, StorageAt;
    StoragesListed(run, lock, storageClass);
    var storage := Storages(run, lock, storageClass);
    forall i | 0 <= i < |storage| ensures StorageLocked(run, storage[i], ByKey(Objects(run, lock)), lock) {
      OneStorageFine(run, lock, storageClass, i);
    }
    ClaimNames(run, lock, storageClass);
    VolumesDiffer(run, lock, storageClass);
  }

  lemma StoragesListed(run: RunIdentity, lock: Lock, storageClass: string)
    ensures |Storages(run, lock, storageClass)| == |Claims()|
    ensures forall i :: 0 <= i < |Claims()| ==> Storages(run, lock, storageClass)[i] == StorageAt(run, lock, storageClass, i)
  {
    hide StorageAt, Claims;
  }

  lemma StorageFields(run: RunIdentity, lock: Lock, storageClass: string, i: nat)
    requires i < |Claims()|
    ensures var st := StorageAt(run, lock, storageClass, i); st.claimName == Claims()[i] && st.volumeUid == Uid(lock, i) == st.volumeName
  {
    hide CLAIMS, Keys, At;
  }

  lemma ClaimNames(run: RunIdentity, lock: Lock, storageClass: string)
    ensures (set st | st in Storages(run, lock, storageClass) :: st.claimName) == CLAIMS.Keys
  {
    hide CLAIMS, Storages, StorageAt;
    ListingHolds(CLAIMS.Keys);
    StoragesListed(run, lock, storageClass);
    var storage := Storages(run, lock, storageClass);
    forall i | 0 <= i < |storage| ensures storage[i].claimName == Claims()[i] && Claims()[i] in CLAIMS {
      StorageFields(run, lock, storageClass, i);
    }
    forall name | name in CLAIMS ensures name in (set st | st in storage :: st.claimName) {
      var i :| 0 <= i < |Claims()| && Claims()[i] == name;
      assert storage[i] in storage;
    }
  }

  lemma VolumesDiffer(run: RunIdentity, lock: Lock, storageClass: string)
    ensures |set st | st in Storages(run, lock, storageClass) :: st.volumeUid| == |Storages(run, lock, storageClass)|
    ensures |set st | st in Storages(run, lock, storageClass) :: st.volumeName| == |Storages(run, lock, storageClass)|
  {
    hide Storages, StorageAt, Uid, Claims;
    StoragesListed(run, lock, storageClass);
    var storage := Storages(run, lock, storageClass);
    var uids := seq(|storage|, i requires 0 <= i < |storage| => Uid(lock, i));
    forall i | 0 <= i < |storage| ensures storage[i].volumeUid == uids[i] == storage[i].volumeName {
      StorageFields(run, lock, storageClass, i);
    }
    forall i, j | 0 <= i < j < |uids| ensures uids[i] != uids[j] {
      UidLength(lock, i);
      UidLength(lock, j);
    }
    VolumeSets(storage, uids);
  }

  lemma UidLength(lock: Lock, i: nat)
    ensures |Uid(lock, i)| == |lock.clusterUid| + 1 + i
  {
  }

  lemma VolumeSets(storage: seq<Storage>, uids: seq<string>)
    requires |uids| == |storage| && Distinct(uids)
    requires forall i :: 0 <= i < |storage| ==> storage[i].volumeUid == uids[i] == storage[i].volumeName
    ensures |set st | st in storage :: st.volumeUid| == |storage|
    ensures |set st | st in storage :: st.volumeName| == |storage|
  {
    DistinctSize(uids);
    forall v ensures v in (set st | st in storage :: st.volumeUid) <==> v in uids {
      if v in uids {
        var i :| 0 <= i < |uids| && uids[i] == v;
        assert storage[i] in storage;
      }
    }
    forall v ensures v in (set st | st in storage :: st.volumeName) <==> v in uids {
      if v in uids {
        var i :| 0 <= i < |uids| && uids[i] == v;
        assert storage[i] in storage;
      }
    }
    assert (set st | st in storage :: st.volumeUid) == Elements(uids);
    assert (set st | st in storage :: st.volumeName) == Elements(uids);
  }

  lemma OneStorageFine(run: RunIdentity, lock: Lock, storageClass: string, i: nat)
    requires Usable(lock) && storageClass != "" && i < |Claims()|
    ensures StorageLocked(run, StorageAt(run, lock, storageClass, i), ByKey(Objects(run, lock)), lock)
  {
    hide CLAIMS, Keys, Objects, Object, At, ROLES, ByKey, UidAt;
    ListingHolds(CLAIMS.Keys);
    var name := Claims()[i];
    ClaimKey(run, name);
    AtHolds(run, lock, (PersistentVolumeClaim, name));
    assert UidAt(run, lock, (PersistentVolumeClaim, name)) != "" by { UidLength(lock, 1 + IndexOf(Keys(run), (PersistentVolumeClaim, name))); UidAtIs(run, lock, name); }
  }

  lemma UidAtIs(run: RunIdentity, lock: Lock, name: string)
    ensures UidAt(run, lock, (PersistentVolumeClaim, name)) == Uid(lock, 1 + IndexOf(Keys(run), (PersistentVolumeClaim, name)))
  {
  }

  // ----- images -----

  lemma RoleOfHolds(run: RunIdentity, w: Key)
    requires w in Workloads(run)
    ensures RoleOf(w) in ROLES
    ensures RoleOf(w).PipelineApplication? <==> w.0.Job?
    ensures w.0.StatefulSet? ==> RoleWorkload(RoleOf(w)) == Some(w.1)
  {
    hide JobNames;
    WorkloadsHold(run);
    assert ROLES[0] == Kafka && ROLES[1] == HdfsNameNode && ROLES[2] == HdfsDataNode && ROLES[3] == PipelineApplication;
  }

  ghost function ImageAt(run: RunIdentity, lock: Lock, i: nat): Image
    requires i < 9 && Usable(lock)
  {
    PodAt(run, lock, i);
    var pod, w := Object(run, lock, |Direct(run)| + i), Controllers(run)[i];
    RoleOfHolds(run, w);
    var locked := lock.images[RoleOf(w)];
    Image(w.1, pod.name, pod.uid, "c", RoleOf(w), locked.reference, "@" + locked.digest, locked.digest, locked.digest)
  }

  ghost function Images(run: RunIdentity, lock: Lock): seq<Image>
    requires Usable(lock)
  {
    seq(9, i requires 0 <= i < 9 => ImageAt(run, lock, i))
  }

  lemma PodRuns(run: RunIdentity, image: Image, objs: set<ObjectRecord>, pod: ObjectRecord, locked: LockedImage)
    requires pod in objs && RunsIn(run, image, pod) && Pinned(locked)
    requires image.declaredReference == locked.reference && image.digest == locked.digest && image.runtimeImageId == "@" + locked.digest
    ensures ImageBound(run, image, objs, locked)
  {
    hide RunsIn, JobNames;
    assert pod in PodsRunning(run, image, objs);
    assert image.runtimeImageId[0..] == "@" + image.digest;
  }

  lemma ImageFields(run: RunIdentity, lock: Lock, i: nat)
    requires i < 9 && Usable(lock)
    ensures |Controllers(run)| == 9 && |Keys(run)| == |Direct(run)| + 9
    ensures var image, pod, w := ImageAt(run, lock, i), Object(run, lock, |Direct(run)| + i), Controllers(run)[i];
            && image.role == RoleOf(w) && image.role in lock.images && Pinned(lock.images[image.role])
            && image.workload == w.1 && image.podUid == pod.uid
            && image.declaredReference == lock.images[image.role].reference && image.digest == lock.images[image.role].digest
            && image.runtimeImageId == "@" + lock.images[image.role].digest
  {
    hide Keys, Objects, Object, UidAt, Direct, Workloads, Controllers, JobNames, STATEFUL_NAMES, ROLES, RoleOf, Pinned;
    PodAt(run, lock, i);
    RoleOfHolds(run, Controllers(run)[i]);
    var j :| 0 <= j < |ROLES| && ROLES[j] == RoleOf(Controllers(run)[i]);
  }

  lemma ImageFine(run: RunIdentity, lock: Lock, i: nat)
    requires i < 9 && Usable(lock)
    ensures var image := ImageAt(run, lock, i);
            image.role in lock.images && ImageBound(run, image, Elements(Objects(run, lock)), lock.images[image.role])
  {
    hide Keys, Objects, Object, UidAt, Direct, Workloads, Controllers, JobNames, STATEFUL_NAMES, ROLES, RoleOf, RoleWorkload,
         ImageBound, Pinned, ImageAt, Usable;
    PodAt(run, lock, i);
    ControllersHold(run);
    ImageFields(run, lock, i);
    var pod, w := Object(run, lock, |Direct(run)| + i), Controllers(run)[i];
    RoleOfHolds(run, w);
    assert RunsIn(run, ImageAt(run, lock, i), pod);
    PodRuns(run, ImageAt(run, lock, i), Elements(Objects(run, lock)), pod, lock.images[RoleOf(w)]);
  }

  /** A role that one record has is found once. */
  lemma {:induction false} OneOfRole(images: seq<Image>, role: Role, i: nat)
    requires i < |images| && images[i].role == role && forall j :: 0 <= j < |images| && images[j].role == role ==> j == i
    ensures |OfRole(images, role)| == 1
  {
    var earlier := images[..|images| - 1];
    if i < |earlier| {
      OneOfRole(earlier, role, i);
    } else {
      NoneOfRole(earlier, role);
    }
  }

  lemma {:induction false} NoneOfRole(images: seq<Image>, role: Role)
    requires forall j :: 0 <= j < |images| ==> images[j].role != role
    ensures OfRole(images, role) == []
  {
    if images != [] {
      NoneOfRole(images[..|images| - 1], role);
    }
  }

  lemma ImageRole(run: RunIdentity, lock: Lock, i: nat)
    requires i < 9 && Usable(lock)
    ensures |Controllers(run)| == 9 && Images(run, lock)[i] == ImageAt(run, lock, i)
    ensures Images(run, lock)[i].role == RoleOf(Controllers(run)[i]) && Images(run, lock)[i].workload == Controllers(run)[i].1
  {
    hide Keys, Object, Direct, Workloads, ROLES, RoleOf, Usable, Controllers;
    ControllersHold(run);
  }

  lemma ServiceRole(run: RunIdentity, lock: Lock, role: Role)
    requires Usable(lock) && role in {Kafka, HdfsNameNode, HdfsDataNode}
    ensures |OfRole(Images(run, lock), role)| == 1
  {
    hide Images, Workloads, Controllers, ROLES, Usable, JobNames, STATEFUL_NAMES;
    var name := RoleWorkload(role).value;
    ServiceIsWorkload(run, role);
    var w := (StatefulSet, name);
    ControllersHold(run);
    var i :| 0 <= i < |Controllers(run)| && Controllers(run)[i] == w;
    ImageCount(run, lock);
    forall j | 0 <= j < 9 ensures Images(run, lock)[j].role == role <==> j == i {
      ImageRole(run, lock, j);
      assert Controllers(run)[j] in Controllers(run);
      RoleOfHolds(run, Controllers(run)[j]);
      RoleOfHolds(run, w);
      if Images(run, lock)[j].role == role {
        assert Controllers(run)[j] == w;
      }
    }
    OneOfRole(Images(run, lock), role, i);
  }

  lemma ImageCount(run: RunIdentity, lock: Lock)
    requires Usable(lock)
    ensures |Images(run, lock)| == 9
  {
  }

  lemma ServiceIsWorkload(run: RunIdentity, role: Role)
    requires role in {Kafka, HdfsNameNode, HdfsDataNode}
    ensures RoleWorkload(role).Some? && (StatefulSet, RoleWorkload(role).value) in Workloads(run)
    ensures RoleOf((StatefulSet, RoleWorkload(role).value)) == role
  {
    hide JobNames;
    WorkloadsHold(run);
    assert |"kafka"| == 5 && "hdfs-namenode"[5] == 'n' && "hdfs-datanode"[5] == 'd';
  }

  lemma JobRole(run: RunIdentity, lock: Lock)
    requires Usable(lock)
    ensures |WorkloadsOf(OfRole(Images(run, lock), PipelineApplication))| >= |STEPS|
    ensures OfRole(Images(run, lock), PipelineApplication) != []
  {
    hide Images, Workloads, Controllers, ROLES, Usable, JobNames, STATEFUL_NAMES, RoleOf;
    var matches := OfRole(Images(run, lock), PipelineApplication);
    OfRoleHolds(Images(run, lock), PipelineApplication);
    ControllersHold(run);
    WorkloadsHold(run);
    ImageCount(run, lock);
    SixJobs(run);
    forall name | name in JobNames(run) ensures name in WorkloadsOf(matches) {
      var w := (Job, name);
      assert w in Controllers(run);
      var i :| 0 <= i < |Controllers(run)| && Controllers(run)[i] == w;
      ImageRole(run, lock, i);
      RoleOfHolds(run, w);
      assert Images(run, lock)[i] in Images(run, lock);
    }
    assert JobNames(run) <= WorkloadsOf(matches);
    SameSizeSubset(JobNames(run), WorkloadsOf(matches));
    var name := Inhabitant(JobNames(run));
  }

  lemma RolesFine(run: RunIdentity, lock: Lock, role: Role)
    requires Usable(lock) && role in ROLES
    ensures role in lock.images && RoleCovered(run, Images(run, lock), role, Elements(Objects(run, lock)), lock)
  {
    hide Images, Objects, ImageBound, WorkloadsOf;
    assert role in {Kafka, HdfsNameNode, HdfsDataNode, PipelineApplication};
    OfRoleHolds(Images(run, lock), role);
    ImageCount(run, lock);
    forall image | image in OfRole(Images(run, lock), role) ensures ImageBound(run, image, Elements(Objects(run, lock)), lock.images[role]) {
      var i :| 0 <= i < 9 && Images(run, lock)[i] == image;
      ImageRole(run, lock, i);
      ImageFine(run, lock, i);
    }
    if role.PipelineApplication? {
      JobRole(run, lock);
    } else {
      ServiceRole(run, lock, role);
    }
  }

  // ----- the receipt -----

  lemma ExampleAccepted(run: RunIdentity, lock: Lock, storageClass: string)
    requires Usable(lock) && storageClass != ""
    ensures Accepts(run, Example(run, lock, Storages(run, lock, storageClass), Images(run, lock)), lock)
  {
    hide InventoryDistinct, DirectComplete, ObjectChecked, OnePodEach, StorageValid, RoleCovered, Objects, Storages, Images, JobNames, Pinned;
    InventoryFine(run, lock, Storages(run, lock, storageClass), Images(run, lock));
    DirectFine(run, lock, Storages(run, lock, storageClass), Images(run, lock));
    forall o | o in Objects(run, lock) ensures ObjectChecked(run, o, ByKey(Objects(run, lock))) {
      CheckedFine(run, lock, o);
    }
    PodsFine(run, lock);
    StorageFine(run, lock, storageClass);
    forall i | 0 <= i < |ROLES| ensures RoleCovered(run, Images(run, lock), ROLES[i], Elements(Objects(run, lock)), lock) {
      RolesFine(run, lock, ROLES[i]);
    }
    UidLength(lock, 0);
  }

  lemma UsableIfAccepted(run: RunIdentity, r: Receipt, lock: Lock)
    requires Accepts(run, r, lock)
    ensures Usable(lock)
  {
    hide DirectComplete, ObjectChecked, OnePodEach, CLAIMS, WorkloadsOf, JobNames, RunsIn;
    forall i | 0 <= i < |ROLES| ensures Pinned(lock.images[ROLES[i]]) {
      assert RoleCovered(run, r.images, ROLES[i], Elements(r.objects), lock);
      var image := OfRole(r.images, ROLES[i])[0];
      assert image in OfRole(r.images, ROLES[i]);
      assert ImageBound(run, image, Elements(r.objects), lock.images[ROLES[i]]);
    }
    AnyClaim();
    var name := Inhabitant(CLAIMS.Keys);
    assert name in (set st | st in r.storage :: st.claimName);
    var st :| st in r.storage && st.claimName == name;
    assert StorageLocked(run, st, ByKey(r.objects), lock);
  }

  lemma AnyClaim()
    ensures CLAIMS.Keys != {}
  {
    assert "it4931-hdfs-namenode" in CLAIMS;
  }

  /** Whatever the run, some receipt is accepted exactly when the lock is usable. */
  lemma AcceptedReceiptExistsExactly(run: RunIdentity, lock: Lock)
    ensures (exists r :: Accepts(run, r, lock)) <==> Usable(lock)
  {
    hide *;
    if r :| Accepts(run, r, lock) {
      UsableIfAccepted(run, r, lock);
    }
    if Usable(lock) {
      ExampleAccepted(run, lock, "standard");
    }
  }
}
