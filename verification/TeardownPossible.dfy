/**
 The teardown guards can be met (scripts/k8s/teardown.py): two accepted receipts can authorise a teardown
 exactly when they are compatible with each other, and some pair of receipts can exactly when both locks are
 usable. The evidence lists what the receipts record and nothing else. The same construction shows which
 teardowns wait for the acceptance Pod, and that a ControllerRevision of a StatefulSet that no receipt records
 can pass.
 */
module TeardownPossible {
  import opened Wrappers
  import opened Collections
  import opened Ownership
  import opened Inventory
  import opened Teardown
  import B2 = ServingReceipt
  import B3 = PipelineReceipt
  import ServingExample
  import PipelineExample

  /** One namespace, different volumes, and one StorageClass. */
  ghost predicate Compatible(b2: B2.Receipt, b3: B3.Receipt) {
    && b2.namespaceUid == b3.namespaceUid
    && VolumesDistinct(StorageRecords(b2, b3))
    && |ExpectedClasses(StorageRecords(b2, b3))| == 1
  }

  // ----- every recorded object may be listed -----

  predicate Plain(k: Key) {
    !DerivedKind(k.0) && !k.0.OtherKind? && k.1 != "" && !SystemObject(k)
  }

  lemma PlainByInitial(k: Key)
    requires !DerivedKind(k.0) && !k.0.OtherKind? && k.1 != ""
    requires k.0.ServiceAccount? ==> k.1[0] == 'm'
    requires k.0.ConfigMap? ==> k.1[0] != 'k'
    ensures Plain(k)
  {
    assert "default"[0] == 'd' && "kube-root-ca.crt"[0] == 'k';
  }

  lemma WorkloadsPlain()
    ensures forall k :: k in B2.WORKLOADS ==> Plain(k)
  {
    hide Plain;
    forall k | k in B2.WORKLOADS ensures Plain(k) { PlainByInitial(k); }
  }

  lemma SettingsPlain()
    ensures forall k :: k in B2.SETTINGS ==> Plain(k)
  {
    hide Plain;
    forall k | k in B2.SETTINGS ensures Plain(k) { PlainByInitial(k); }
  }

  lemma PoliciesPlain()
    ensures forall k :: k in B2.POLICIES ==> Plain(k)
  {
    hide Plain;
    forall k | k in B2.POLICIES ensures Plain(k) { PlainByInitial(k); }
  }

  lemma SecretsPlain()
    ensures forall k :: k in B2.SECRETS ==> Plain(k)
  {
    hide Plain;
    forall k | k in B2.SECRETS ensures Plain(k) { PlainByInitial(k); }
  }

  lemma ServingPlain(run: RunIdentity, r: B2.Receipt, exp: B2.Expectation, o: ObjectRecord)
    requires B2.Accepts(run, r, exp) && o in r.objects
    ensures Plain(o.Key()) && o.uid != ""
  {
    hide B2.TargetsRun, B2.ChildrenBound, B2.StorageContract, B2.ImagesAdmissible, B2.ClusterImagesLocked,
         B2.WORKLOADS, B2.SETTINGS, B2.POLICIES, B2.SECRETS, B2.ObjectsAdmissible, Plain;
    B2.AdmissibleObjects(run, {r.clusterUid, r.namespaceUid}, r.objects);
    ByKeyHolds(r.objects);
    WorkloadsPlain();
    SettingsPlain();
    PoliciesPlain();
    SecretsPlain();
    if B2.Dynamic(o.kind) {
      PlainByInitial(o.Key());
    } else {
      assert o.Key() in B2.DirectKeys(ByKey(r.objects).Keys);
    }
  }

  lemma KeyedNames(k: Key, kind: Kind, names: set<string>)
    requires k in B3.Keyed(kind, names)
    ensures k.0 == kind && k.1 in names
  {
  }

  lemma NamesVisible(name: string)
    ensures name in B3.CONFIG_NAMES ==> name != "" && name[0] != 'k'
    ensures name in B3.ACCOUNT_NAMES ==> name != "" && name[0] == 'm'
    ensures name in B3.CLAIMS || name in B3.SERVICE_NAMES || name in B3.STATEFUL_NAMES ==> name != ""
  {
  }

  lemma PolicyVisible(name: string)
    ensures name in B3.POLICY_NAMES ==> name != ""
  {
  }

  lemma DirectPlain(run: RunIdentity, k: Key)
    requires k in B3.ExpectedDirect(run)
    ensures Plain(k)
  {
    hide B3.CONFIG_NAMES, B3.ACCOUNT_NAMES, B3.CLAIMS, B3.SERVICE_NAMES, B3.STATEFUL_NAMES, B3.POLICY_NAMES, B3.JobNames, B3.Keyed, Plain;
    NamesVisible(k.1);
    PolicyVisible(k.1);
    if k in B3.Keyed(Job, B3.JobNames(run)) {
      KeyedNames(k, Job, B3.JobNames(run));
      JobNameInitial(run, k.1);
    } else if k in B3.Keyed(ConfigMap, B3.CONFIG_NAMES) {
      KeyedNames(k, ConfigMap, B3.CONFIG_NAMES);
    } else if k in B3.Keyed(ServiceAccount, B3.ACCOUNT_NAMES) {
      KeyedNames(k, ServiceAccount, B3.ACCOUNT_NAMES);
    } else if k in B3.Keyed(PersistentVolumeClaim, B3.CLAIMS.Keys) {
      KeyedNames(k, PersistentVolumeClaim, B3.CLAIMS.Keys);
    } else if k in B3.Keyed(Service, B3.SERVICE_NAMES) {
      KeyedNames(k, Service, B3.SERVICE_NAMES);
    } else if k in B3.Keyed(StatefulSet, B3.STATEFUL_NAMES) {
      KeyedNames(k, StatefulSet, B3.STATEFUL_NAMES);
    } else {
      KeyedNames(k, NetworkPolicy, B3.POLICY_NAMES);
    }
    PlainByInitial(k);
  }

  lemma PodNamed(run: RunIdentity, o: ObjectRecord)
    requires o.kind.Pod? && |o.owners| == 1 && B3.ChildName(run, o)
    ensures o.name != ""
  {
    hide B3.JobNames, B3.STATEFUL_NAMES;
    if o.owners[0].kind.Job? {
      assert |o.owners[0].name + "-"| > 0;
    }
  }

  lemma PipelinePlain(run: RunIdentity, r: B3.Receipt, lock: B3.Lock, o: ObjectRecord)
    requires B3.Accepts(run, r, lock) && o in r.objects
    ensures Plain(o.Key()) && o.uid != ""
  {
    hide B3.HeaderValid, B3.StorageValid, B3.RoleCovered, B3.OnePodEach, B3.JobNames, B3.ChildName, B3.OwnerResolves, B3.ExpectedDirect, Plain;
    ByKeyHolds(r.objects);
    assert o.uid in B3.UidsOf(r.objects);
    if o.kind.Pod? {
      B3.CheckedPod(run, o, ByKey(r.objects));
      PodNamed(run, o);
      PlainByInitial(o.Key());
    } else {
      assert o.Key() in B3.NonPods(ByKey(r.objects).Keys);
      DirectPlain(run, o.Key());
    }
  }

  // ----- the two receipts never record the same name -----

  /** What tells the names of serving objects from those of pipeline objects, kind by kind. */
  predicate ServingName(k: Key) {
    && k.1 != ""
    && match k.0
       case Job => false
       case ServiceAccount => |k.1| > 9 && k.1[9] != 'p'
       case PersistentVolumeClaim => k.1[0] == 'd'
       case NetworkPolicy =>
         k.1[0] == 'd'
         || (|k.1| > 7 && ((k.1[6] == 'd' && k.1[7] == 'n') || (k.1[6] == 'a' && k.1[7] == 'p') || k.1[6] == 'u'))
       case ConfigMap => k.1[0] == 'm'
       case Service => k.1[0] == 'm'
       case StatefulSet => k.1[0] == 'm'
       case Pod => k.1[0] == 'm'
       case _ => true
  }

  lemma WorkloadNames()
    ensures forall k :: k in B2.WORKLOADS ==> ServingName(k)
  {
  }

  lemma SettingNames()
    ensures forall k :: k in B2.SETTINGS ==> ServingName(k)
  {
  }

  lemma PolicyNames()
    ensures forall k :: k in B2.POLICIES ==> ServingName(k)
  {
  }

  lemma SecretNames()
    ensures forall k :: k in B2.SECRETS ==> ServingName(k)
  {
  }

  lemma ChildInitial(name: string, i: nat)
    requires i < |B2.CHILDREN| && B2.NameMatches(name, B2.CHILDREN[i].name)
    ensures name != "" && name[0] == 'm'
  {
    assert forall j :: 0 <= j < |B2.CHILDREN| ==> |B2.CHILDREN[j].name| > 0 && B2.CHILDREN[j].name[0] == 'm';
  }

  lemma ServingNamed(run: RunIdentity, r: B2.Receipt, exp: B2.Expectation, o: ObjectRecord)
    requires B2.Accepts(run, r, exp) && o in r.objects
    ensures ServingName(o.Key())
  {
    hide B2.TargetsRun, B2.ChildBound, B2.StorageContract, B2.ImagesAdmissible, B2.ClusterImagesLocked, B2.NameMatches, B2.CHILDREN,
         B2.WORKLOADS, B2.SETTINGS, B2.POLICIES, B2.SECRETS, B2.ObjectsAdmissible, ServingName;
    ByKeyHolds(r.objects);
    WorkloadNames();
    SettingNames();
    PolicyNames();
    SecretNames();
    if B2.Dynamic(o.kind) {
      var i :| 0 <= i < |B2.CHILDREN| && B2.Fits(o, B2.CHILDREN[i]);
      ChildInitial(o.name, i);
      DynamicNamed(o.Key());
    } else {
      assert o.Key() in B2.DirectKeys(ByKey(r.objects).Keys);
    }
  }

  lemma DynamicNamed(k: Key)
    requires B2.Dynamic(k.0) && k.1 != "" && k.1[0] == 'm'
    ensures ServingName(k)
  {
  }

  lemma PipelineInitials(name: string)
    ensures name in B3.CONFIG_NAMES || name in B3.CLAIMS ==> name[0] == 'i'
    ensures name in B3.ACCOUNT_NAMES ==> |name| > 9 && name[9] == 'p'
    ensures name in B3.SERVICE_NAMES || name in B3.STATEFUL_NAMES ==> name[0] in "ndkh"
  {
  }

  lemma PipelinePolicies(name: string)
    requires name in B3.POLICY_NAMES
    ensures !ServingName((NetworkPolicy, name))
  {
  }

  lemma DirectElsewhere(run: RunIdentity, k: Key)
    requires k in B3.ExpectedDirect(run)
    ensures !ServingName(k)
  {
    hide B3.CONFIG_NAMES, B3.ACCOUNT_NAMES, B3.CLAIMS, B3.SERVICE_NAMES, B3.STATEFUL_NAMES, B3.POLICY_NAMES, B3.JobNames, B3.Keyed;
    PipelineInitials(k.1);
    if k in B3.Keyed(Job, B3.JobNames(run)) {
      KeyedNames(k, Job, B3.JobNames(run));
    } else if k in B3.Keyed(ConfigMap, B3.CONFIG_NAMES) {
      KeyedNames(k, ConfigMap, B3.CONFIG_NAMES);
    } else if k in B3.Keyed(ServiceAccount, B3.ACCOUNT_NAMES) {
      KeyedNames(k, ServiceAccount, B3.ACCOUNT_NAMES);
    } else if k in B3.Keyed(PersistentVolumeClaim, B3.CLAIMS.Keys) {
      KeyedNames(k, PersistentVolumeClaim, B3.CLAIMS.Keys);
    } else if k in B3.Keyed(Service, B3.SERVICE_NAMES) {
      KeyedNames(k, Service, B3.SERVICE_NAMES);
    } else if k in B3.Keyed(StatefulSet, B3.STATEFUL_NAMES) {
      KeyedNames(k, StatefulSet, B3.STATEFUL_NAMES);
    } else {
      KeyedNames(k, NetworkPolicy, B3.POLICY_NAMES);
      PipelinePolicies(k.1);
    }
  }

  lemma PodElsewhere(run: RunIdentity, o: ObjectRecord)
    requires o.kind.Pod? && |o.owners| == 1 && B3.ChildName(run, o)
    ensures !ServingName(o.Key())
  {
    hide B3.JobNames, B3.STATEFUL_NAMES;
    var owner := o.owners[0];
    if owner.kind.Job? {
      JobNameInitial(run, owner.name);
      JobFirst(run, owner.name);
      assert o.name[0] == owner.name[0];
    } else {
      PipelineInitials(owner.name);
      StatefulNonEmpty(owner.name);
      assert o.name[0] == owner.name[0];
    }
  }

  lemma StatefulNonEmpty(name: string)
    requires name in B3.STATEFUL_NAMES
    ensures name != ""
  {
  }

  lemma JobFirst(run: RunIdentity, name: string)
    requires name in B3.JobNames(run)
    ensures name != "" && name[0] == 'i'
  {
    var step :| step in B3.STEPS && name == JobName(step, run.runId);
    assert name[0] == "it4931-"[0];
  }

  lemma PipelineNamed(run: RunIdentity, r: B3.Receipt, lock: B3.Lock, o: ObjectRecord)
    requires B3.Accepts(run, r, lock) && o in r.objects
    ensures !ServingName(o.Key())
  {
    hide B3.HeaderValid, B3.StorageValid, B3.RoleCovered, B3.OnePodEach, B3.JobNames, B3.ChildName, B3.OwnerResolves, B3.ExpectedDirect, ServingName;
    ByKeyHolds(r.objects);
    if o.kind.Pod? {
      B3.CheckedPod(run, o, ByKey(r.objects));
      PodElsewhere(run, o);
    } else {
      assert o.Key() in B3.NonPods(ByKey(r.objects).Keys);
      DirectElsewhere(run, o.Key());
    }
  }

  lemma {:induction false} UniqueAgree(records: seq<ObjectRecord>)
    requires UniqueKeys(records)
    ensures RecordsAgree(records) && forall k :: k in RecordMap(records) ==> exists o :: o in records && o.Key() == k
  {
    if records != [] {
      var earlier, last := records[..|records| - 1], records[|records| - 1];
      UniqueAgree(earlier);
      assert records == earlier + [last];
      assert last.Key() !in RecordMap(earlier);
    }
  }

  lemma {:induction false} RecordedOnce(objects: seq<ObjectRecord>)
    requires |ByKey(objects)| == |objects|
    ensures UniqueKeys(objects)
  {
    if objects != [] {
      var earlier, last := objects[..|objects| - 1], objects[|objects| - 1];
      KeysAtMost(earlier);
      RecordedOnce(earlier);
      ByKeyHolds(earlier);
    }
  }

  lemma {:induction false} KeysAtMost(objects: seq<ObjectRecord>)
    ensures |ByKey(objects)| <= |objects|
  {
    if objects != [] {
      KeysAtMost(objects[..|objects| - 1]);
    }
  }

  /** Accepted receipts never contradict each other: they have no name in common. */
  lemma AcceptedAgree(run: RunIdentity, lock: Lock, b2: B2.Receipt, b3: B3.Receipt)
    requires B2.Accepts(run, b2, lock.serving) && B3.Accepts(run, b3, lock.pipeline)
    ensures RecordsAgree(Records(b2, b3))
  {
    assert Records(b2, b3) == b2.objects + b3.objects;
    hide *;
    UniqueServing(run, b2, lock.serving);
    UniquePipeline(run, b3, lock.pipeline);
    forall o | o in b2.objects ensures ServingName(o.Key()) {
      ServingNamed(run, b2, lock.serving, o);
    }
    forall o | o in b3.objects ensures !ServingName(o.Key()) {
      PipelineNamed(run, b3, lock.pipeline, o);
    }
    ApartUnique(b2.objects, b3.objects);
    UniqueAgree(b2.objects + b3.objects);
  }

  lemma ApartUnique(serving: seq<ObjectRecord>, pipeline: seq<ObjectRecord>)
    requires UniqueKeys(serving) && UniqueKeys(pipeline)
    requires forall o :: o in serving ==> ServingName(o.Key())
    requires forall o :: o in pipeline ==> !ServingName(o.Key())
    ensures UniqueKeys(serving + pipeline)
  {
    hide ServingName;
  }

  lemma UniqueServing(run: RunIdentity, r: B2.Receipt, exp: B2.Expectation)
    requires B2.Accepts(run, r, exp)
    ensures UniqueKeys(r.objects)
  {
    hide B2.TargetsRun, B2.ChildrenBound, B2.StorageContract, B2.ImagesAdmissible, B2.ClusterImagesLocked, B2.DIRECT_INVENTORY, B2.ObjectsAdmissible;
    B2.AdmissibleObjects(run, {r.clusterUid, r.namespaceUid}, r.objects);
  }

  lemma UniquePipeline(run: RunIdentity, r: B3.Receipt, lock: B3.Lock)
    requires B3.Accepts(run, r, lock)
    ensures UniqueKeys(r.objects)
  {
    hide B3.HeaderValid, B3.DirectComplete, B3.StorageValid, B3.RoleCovered, B3.OnePodEach, B3.ObjectChecked;
    RecordedOnce(r.objects);
  }

  // ----- a listing that shows exactly the records -----

  function Shown(run: RunIdentity, k: Key, identity: Identity): LiveObject {
    LiveObject(k.0, k.1, identity.uid, Some(run.Namespace()), Some(identity.labels), ShownOwners(identity.owners), None, map[], [], [])
  }

  function ShownOwners(refs: seq<OwnerRef>): (owners: seq<LiveOwner>)
    ensures LiveRefs(owners) == refs
  {
    seq(|refs|, i requires 0 <= i < |refs| => LiveOwner(refs[i].kind, refs[i].name, refs[i].uid, Some(refs[i].controller), ""))
  }

  ghost function Items(run: RunIdentity, m: map<Key, Identity>): seq<LiveObject> {
    var keys := Listing(m.Keys);
    ListingHolds(m.Keys);
    seq(|keys|, i requires 0 <= i < |keys| => Shown(run, keys[i], m[keys[i]]))
  }

  ghost function Live(run: RunIdentity, m: map<Key, Identity>): map<Key, LiveObject> {
    map k | k in m :: Shown(run, k, m[k])
  }

  ghost predicate Showable(m: map<Key, Identity>) {
    forall k :: k in m ==> Plain(k) && m[k].uid != ""
  }

  lemma ShownFits(run: RunIdentity, k: Key, identity: Identity)
    requires Plain(k) && identity.uid != ""
    ensures Shown(run, k, identity).Key() == k && WellFormed(run, Shown(run, k, identity)) && !SystemObject(k)
  {
  }

  lemma {:induction false} ScansShown(run: RunIdentity, m: map<Key, Identity>, keys: seq<Key>, items: seq<LiveObject>)
    requires Showable(m) && Distinct(keys) && |items| == |keys|
    requires forall i :: 0 <= i < |keys| ==> keys[i] in m && items[i] == Shown(run, keys[i], m[keys[i]])
    ensures Scannable(run, items)
    ensures FirstLive(items).Keys == Elements(keys)
    ensures forall k :: k in FirstLive(items) ==> k in m && FirstLive(items)[k] == Shown(run, k, m[k])
  {
    hide WellFormed, SystemObject, Shown;
    if items != [] {
      var n := |keys| - 1;
      ScansShown(run, m, keys[..n], items[..n]);
      assert keys == keys[..n] + [keys[n]] && items == items[..n] + [items[n]];
      assert keys[n] !in keys[..n];
      ShownFits(run, keys[n], m[keys[n]]);
    }
  }

  lemma ItemsScan(run: RunIdentity, m: map<Key, Identity>)
    requires Showable(m)
    ensures Scannable(run, Items(run, m)) && FirstLive(Items(run, m)) == Live(run, m)
  {
    hide Scannable, FirstLive, Shown, Plain;
    ListingHolds(m.Keys);
    ScansShown(run, m, Listing(m.Keys), Items(run, m));
    assert FirstLive(Items(run, m)).Keys == m.Keys;
  }

  /** One more object, of a name that is not taken. */
  lemma ExtraScans(run: RunIdentity, items: seq<LiveObject>, extra: LiveObject)
    requires Scannable(run, items) && WellFormed(run, extra) && !SystemObject(extra.Key()) && extra.Key() !in FirstLive(items)
    ensures Scannable(run, items + [extra]) && FirstLive(items + [extra]) == FirstLive(items)[extra.Key() := extra]
  {
    assert (items + [extra])[..|items|] == items;
  }

  /** The live objects: what is expected and, if given, one object more. */
  ghost function With(live: map<Key, LiveObject>, extra: Option<LiveObject>): map<Key, LiveObject> {
    if extra.Some? then live[extra.value.Key() := extra.value] else live
  }

  ghost predicate MayAdd(run: RunIdentity, extra: Option<LiveObject>, expected: map<Key, Identity>) {
    extra.Some? ==>
      && WellFormed(run, extra.value) && extra.value.kind.ControllerRevision? && RevisionAuthorised(run, extra.value, expected)
  }

  lemma ShownKept(run: RunIdentity, m: map<Key, Identity>, extra: Option<LiveObject>)
    requires Showable(m) && (extra.Some? ==> extra.value.kind.ControllerRevision?)
    ensures var live := With(Live(run, m), extra);
            && live.Keys - DerivedKeys(live) == m.Keys
            && (forall k :: k in m ==> live[k].AsIdentity() == m[k])
            && forall k :: k in live ==> live[k].Key() == k && (DerivedKind(live[k].kind) ==> extra == Some(live[k]))
  {
    var live := With(Live(run, m), extra);
    assert forall k :: k in m ==> live[k].AsIdentity() == m[k];
    assert live.Keys - DerivedKeys(live) == m.Keys;
  }

  lemma ShowsExactly(run: RunIdentity, b2: B2.Receipt, b3: B3.Receipt, jobUid: Option<string>, extra: Option<LiveObject>)
    requires RecordsAgree(Records(b2, b3)) && Showable(Receipted(run, b2, b3, jobUid)) && MayAdd(run, extra, Receipted(run, b2, b3, jobUid))
    ensures ObjectsExact(run, b2, b3, jobUid, None, With(Live(run, Receipted(run, b2, b3, jobUid)), extra))
  {
    hide Receipted, RecordsAgree, AcceptanceJob, AcceptanceJobLabels, AuthorisedUids, SystemObject, RevisionAuthorised, With, Live, Showable;
    ShownKept(run, Receipted(run, b2, b3, jobUid), extra);
  }

  // ----- volumes, classes and the namespace -----

  function Bound(run: RunIdentity, r: StorageRecord): Volume {
    Volume(r.volumeName, r.volumeUid, Some(ClaimRef(run.Namespace(), r.claimName, r.claimUid)))
  }

  function Volumes(run: RunIdentity, records: seq<StorageRecord>): seq<Volume> {
    if records == [] then [] else Volumes(run, records[..|records| - 1]) + [Bound(run, records[|records| - 1])]
  }

  lemma {:induction false} VolumesFine(run: RunIdentity, records: seq<StorageRecord>)
    requires VolumesDistinct(records)
    ensures VolumesExact(run, records, Volumes(run, records))
  {
    if records != [] {
      var earlier, last := records[..|records| - 1], records[|records| - 1];
      VolumesFine(run, earlier);
      var volumes := Volumes(run, records);
      assert volumes[..|volumes| - 1] == Volumes(run, earlier);
    }
  }

  function Classes(records: seq<StorageRecord>): seq<StorageClassItem> {
    if records == [] then []
    else Classes(records[..|records| - 1]) + [StorageClassItem(records[|records| - 1].storageClass, records[|records| - 1].storageClassUid)]
  }

  lemma {:induction false} ClassesFine(records: seq<StorageRecord>)
    ensures ObservedClasses(Classes(records)) == ExpectedClasses(records)
  {
    if records != [] {
      ClassesFine(records[..|records| - 1]);
      var classes := Classes(records);
      assert classes[..|classes| - 1] == Classes(records[..|records| - 1]);
    }
  }

  ghost function Namespaces(run: RunIdentity, uid: string): seq<NamespaceItem> {
    [NamespaceItem("default", "d", None), NamespaceItem("kube-system", "s", None), NamespaceItem("kube-public", "p", None),
     NamespaceItem("kube-node-lease", "l", None), NamespaceItem(run.Namespace(), uid, Some(run.RunLabels()))]
  }

  lemma RunIsNot(run: RunIdentity, name: string)
    requires name in PROTECTED_NAMESPACES
    ensures name != run.Namespace()
  {
    assert run.Namespace()[0] == 'i';
    assert name[0] != 'i';
  }

  lemma NamespacesFine(run: RunIdentity, b2: B2.Receipt, b3: B3.Receipt)
    requires b2.namespaceUid == b3.namespaceUid != ""
    ensures NamespacesExact(run, Namespaces(run, b3.namespaceUid), b2, b3)
  {
    hide RunIdentity.Namespace, PROTECTED_NAMESPACES;
    ProtectedFour(run);
    var items := Namespaces(run, b3.namespaceUid);
    OnlyLast(run, items[..4], items[4]);
    assert items == items[..4] + [items[4]];
    NamesOfNamespaces(run, b3.namespaceUid);
  }

  lemma ProtectedFour(run: RunIdentity)
    ensures PROTECTED_NAMESPACES == {"default", "kube-system", "kube-public", "kube-node-lease"}
    ensures forall name :: name in PROTECTED_NAMESPACES ==> name != run.Namespace()
  {
    forall name | name in PROTECTED_NAMESPACES ensures name != run.Namespace() { RunIsNot(run, name); }
  }

  lemma NamesOfNamespaces(run: RunIdentity, uid: string)
    ensures NamespaceNames(Namespaces(run, uid)) == PROTECTED_NAMESPACES + {run.Namespace()}
  {
    hide RunIdentity.Namespace, PROTECTED_NAMESPACES;
    ProtectedFour(run);
    var items := Namespaces(run, uid);
    assert items[0] in items && items[1] in items && items[2] in items && items[3] in items && items[4] in items;
  }

  lemma {:induction false} NoneOfRun(run: RunIdentity, items: seq<NamespaceItem>)
    requires forall i :: 0 <= i < |items| ==> items[i].name != run.Namespace()
    ensures RunNamespaces(run, items) == []
  {
    if items != [] {
      NoneOfRun(run, items[..|items| - 1]);
    }
  }

  lemma OnlyLast(run: RunIdentity, earlier: seq<NamespaceItem>, last: NamespaceItem)
    requires forall i :: 0 <= i < |earlier| ==> earlier[i].name != run.Namespace()
    requires last.name == run.Namespace()
    ensures RunNamespaces(run, earlier + [last]) == [last]
  {
    NoneOfRun(run, earlier);
    assert (earlier + [last])[..|earlier|] == earlier;
  }

  // ----- the guard -----

  ghost function Inventoried(run: RunIdentity, b2: B2.Receipt, b3: B3.Receipt, jobUid: Option<string>, extra: Option<LiveObject>): seq<LiveObject> {
    Items(run, Receipted(run, b2, b3, jobUid)) + if extra.Some? then [extra.value] else []
  }

  ghost function ExampleReplies(run: RunIdentity, b2: B2.Receipt, b3: B3.Receipt, jobUid: Option<string>, extra: Option<LiveObject>): Replies {
    var records := StorageRecords(b2, b3);
    Replies(Some(Namespaces(run, b3.namespaceUid)),
            Some([ResourceList("all", Some(Inventoried(run, b2, b3, jobUid, extra)))]),
            Some(Volumes(run, records)), Some(Classes(records)))
  }

  lemma RecordsShowable(run: RunIdentity, b2: B2.Receipt, b3: B3.Receipt, lock: Lock, jobUid: Option<string>)
    requires B2.Accepts(run, b2, lock.serving) && B3.Accepts(run, b3, lock.pipeline) && RecordsAgree(Records(b2, b3))
    requires jobUid != Some("")
    ensures Showable(Receipted(run, b2, b3, jobUid))
  {
    hide B2.Accepts, B3.Accepts, RecordsAgree, RecordMap, Plain;
    var records := Records(b2, b3);
    RecordMapHolds(records);
    forall k | k in RecordMap(records) ensures Plain(k) && RecordMap(records)[k].uid != "" {
      var o :| o in records && o.Key() == k;
      if o in b2.objects {
        ServingPlain(run, b2, lock.serving, o);
      } else {
        PipelinePlain(run, b3, lock.pipeline, o);
      }
    }
    JobPlain(run);
  }

  lemma JobPlain(run: RunIdentity)
    ensures Plain((Job, AcceptanceJob(run)))
  {
    assert AcceptanceJob(run)[0] == 'i';
  }

  lemma OneList(run: RunIdentity, items: seq<LiveObject>)
    ensures var lists := [ResourceList("all", Some(items))];
            AllItems(lists) == items && AllListed(lists) && Discovered(lists)
  {
    var lists := [ResourceList("all", Some(items))];
    assert lists[..0] == [];
    assert AllItems(lists[..0]) == [] && AllItems(lists) == [] + items == items;
    assert !Blank("all"[0]) && !Blank("all"[1]) && !Blank("all"[2]);
  }

  lemma InventoriedScans(run: RunIdentity, b2: B2.Receipt, b3: B3.Receipt, jobUid: Option<string>, extra: Option<LiveObject>)
    requires Showable(Receipted(run, b2, b3, jobUid)) && MayAdd(run, extra, Receipted(run, b2, b3, jobUid))
    ensures var items := Inventoried(run, b2, b3, jobUid, extra);
            Scannable(run, items) && FirstLive(items) == With(Live(run, Receipted(run, b2, b3, jobUid)), extra)
  {
    hide Scannable, FirstLive, Receipted, RevisionAuthorised, WellFormed, Items;
    var m := Receipted(run, b2, b3, jobUid);
    ItemsScan(run, m);
    if extra.Some? {
      assert !Plain(extra.value.Key());
      ExtraScans(run, Items(run, m), extra.value);
    } else {
      assert Inventoried(run, b2, b3, jobUid, extra) == Items(run, m);
    }
  }

  lemma RepliesFine(run: RunIdentity, b2: B2.Receipt, b3: B3.Receipt, lock: Lock, jobUid: Option<string>, extra: Option<LiveObject>)
    requires B2.Accepts(run, b2, lock.serving) && B3.Accepts(run, b3, lock.pipeline) && Compatible(b2, b3)
    requires jobUid != Some("") && MayAdd(run, extra, Receipted(run, b2, b3, jobUid))
    ensures InventoryExact(run, b2, b3, jobUid, None, ExampleReplies(run, b2, b3, jobUid, extra))
  {
    var uid := b3.namespaceUid;
    assert uid != "" by { hide B2.Accepts; }
    hide *;
    CompatibleParts(b2, b3);
    AcceptedAgree(run, lock, b2, b3);
    RecordsShowable(run, b2, b3, lock, jobUid);
    InventoriedScans(run, b2, b3, jobUid, extra);
    ShowsExactly(run, b2, b3, jobUid, extra);
    OneList(run, Inventoried(run, b2, b3, jobUid, extra));
    VolumesFine(run, StorageRecords(b2, b3));
    ClassesFine(StorageRecords(b2, b3));
    NamespacesFine(run, b2, b3);
    PartsSuffice(run, b2, b3, jobUid, extra);
  }

  lemma CompatibleParts(b2: B2.Receipt, b3: B3.Receipt)
    requires Compatible(b2, b3)
    ensures b2.namespaceUid == b3.namespaceUid && VolumesDistinct(StorageRecords(b2, b3))
    ensures |ExpectedClasses(StorageRecords(b2, b3))| == 1
  {
  }

  lemma PartsSuffice(run: RunIdentity, b2: B2.Receipt, b3: B3.Receipt, jobUid: Option<string>, extra: Option<LiveObject>)
    requires RecordsAgree(Records(b2, b3)) && |ExpectedClasses(StorageRecords(b2, b3))| == 1
    requires var items := Inventoried(run, b2, b3, jobUid, extra);
             var lists := [ResourceList("all", Some(items))];
             && AllItems(lists) == items && AllListed(lists) && Discovered(lists)
             && Scannable(run, items) && ObjectsExact(run, b2, b3, jobUid, None, FirstLive(items))
    requires VolumesExact(run, StorageRecords(b2, b3), Volumes(run, StorageRecords(b2, b3)))
    requires ObservedClasses(Classes(StorageRecords(b2, b3))) == ExpectedClasses(StorageRecords(b2, b3))
    requires NamespacesExact(run, Namespaces(run, b3.namespaceUid), b2, b3)
    ensures InventoryExact(run, b2, b3, jobUid, None, ExampleReplies(run, b2, b3, jobUid, extra))
  {
    hide RecordsAgree, RecordMap, AllItems, AllListed, Discovered, Scannable, ObjectsExact, FirstLive, VolumesExact, NamespacesExact,
         Volumes, Classes, Namespaces, ObservedClasses, ExpectedClasses, StorageRecords, Inventoried;
  }

  lemma ExactMeansCompatible(run: RunIdentity, b2: B2.Receipt, b3: B3.Receipt, jobUid: Option<string>, podUid: Option<string>, c: Replies)
    requires InventoryExact(run, b2, b3, jobUid, podUid, c)
    ensures Compatible(b2, b3)
  {
    hide RecordsAgree, ObjectsExact, Scannable, VolumesDistinct, ExpectedClasses, StorageRecords, AllItems, FirstLive;
  }

  /** Evidence for these receipts whose live acceptance Job is as given and has no Pod. */
  ghost function ExampleEvidence(run: RunIdentity, b2: B2.Receipt, b3: B3.Receipt, jobUid: Option<string>, extra: Option<LiveObject>): Evidence {
    Evidence(true, true, Some(b2), Some(b3), None, true, Some(JobIdentity(jobUid, None)), true, Some(b2), Some(b3),
             if jobUid.Some? then JobFound(jobUid) else JobNotFound, Some([]), ExampleReplies(run, b2, b3, jobUid, extra))
  }

  lemma ExamplePasses(run: RunIdentity, lock: Lock, b2: B2.Receipt, b3: B3.Receipt, jobUid: Option<string>, extra: Option<LiveObject>)
    requires B2.Accepts(run, b2, lock.serving) && B3.Accepts(run, b3, lock.pipeline) && Compatible(b2, b3)
    requires jobUid != Some("") && MayAdd(run, extra, Receipted(run, b2, b3, jobUid))
    ensures GuardsPass(run, lock, ExampleEvidence(run, b2, b3, jobUid, extra))
  {
    hide B2.Accepts, B3.Accepts, Compatible, InventoryExact, ExampleReplies, MayAdd;
    RepliesFine(run, b2, b3, lock, jobUid, extra);
    B2.MatchingIsAnEquivalence(run, b2, b2, b2, lock.serving);
  }

  /** Two accepted receipts can authorise a teardown exactly when they are compatible. */
  lemma TeardownPossibleExactly(run: RunIdentity, lock: Lock, b2: B2.Receipt, b3: B3.Receipt)
    requires B2.Accepts(run, b2, lock.serving) && B3.Accepts(run, b3, lock.pipeline)
    ensures (exists e: Evidence :: e.recordedB2 == Some(b2) && e.recordedB3 == Some(b3) && GuardsPass(run, lock, e)) <==> Compatible(b2, b3)
  {
    hide B2.Accepts, B3.Accepts, Compatible, InventoryExact, LiveJob;
    if e: Evidence :| e.recordedB2 == Some(b2) && e.recordedB3 == Some(b3) && GuardsPass(run, lock, e) {
      ExactMeansCompatible(run, b2, b3, LiveJob(run, e).value.jobUid, LiveJob(run, e).value.podUid, e.replies);
    }
    if Compatible(b2, b3) {
      ExamplePasses(run, lock, b2, b3, None, None);
    }
  }

  // ----- a live acceptance Pod -----

  /**
   With a live acceptance Job, teardown is possible exactly when the lookup by label finds no Pod of it:
   while one is found, no live state lets the guards pass.
   */
  lemma TeardownWaitsForPodExactly(run: RunIdentity, lock: Lock, b2: B2.Receipt, b3: B3.Receipt, jobUid: string, pods: seq<LiveObject>)
    requires B2.Accepts(run, b2, lock.serving) && B3.Accepts(run, b3, lock.pipeline) && Compatible(b2, b3) && jobUid != ""
    ensures (exists e: Evidence ::
               && e.recordedB2 == Some(b2) && e.recordedB3 == Some(b3)
               && e.jobReply == JobFound(Some(jobUid)) && e.podReply == Some(pods)
               && TruthfulLookup(run, e) && GuardsPass(run, lock, e))
            <==> pods == []
  {
    hide B2.Accepts, B3.Accepts, Compatible, GuardsPass, TruthfulLookup;
    if e: Evidence :|
      && e.recordedB2 == Some(b2) && e.recordedB3 == Some(b3)
      && e.jobReply == JobFound(Some(jobUid)) && e.podReply == Some(pods)
      && TruthfulLookup(run, e) && GuardsPass(run, lock, e)
    {
      PassedAgree(run, lock, e);
      FoundPodRefuses(run, lock, e);
    }
    if pods == [] {
      var e := ExampleEvidence(run, b2, b3, Some(jobUid), None);
      ExamplePasses(run, lock, b2, b3, Some(jobUid), None);
      NothingFound(run, e);
    }
  }

  lemma NothingFound(run: RunIdentity, e: Evidence)
    requires e.podReply == Some([])
    ensures TruthfulLookup(run, e)
  {
  }

  // ----- a revision of a foreign StatefulSet -----

  /** A revision whose owner reference names a StatefulSet but has no UID. */
  function ForeignRevision(run: RunIdentity, name: string): LiveObject {
    LiveObject(ControllerRevision, "foreign", "r", Some(run.Namespace()), Some(run.RunLabels()),
               [LiveOwner(Some(StatefulSet), Some(name), None, Some(true), "")], None, map[], [], [])
  }

  /** Such a revision of any StatefulSet that no receipt records passes all guards. */
  lemma ForeignRevisionPasses(run: RunIdentity, lock: Lock, b2: B2.Receipt, b3: B3.Receipt, name: string) returns (e: Evidence)
    requires B2.Accepts(run, b2, lock.serving) && B3.Accepts(run, b3, lock.pipeline) && Compatible(b2, b3)
    requires forall r :: r in Records(b2, b3) ==> r.Key() != (StatefulSet, name)
    ensures e.recordedB2 == Some(b2) && e.recordedB3 == Some(b3) && GuardsPass(run, lock, e)
    ensures Listed(e.replies.resources.value, ForeignRevision(run, name))
  {
    hide B2.Accepts, B3.Accepts, GuardsPass, RecordsAgree, VolumesDistinct, ExpectedClasses, RecordMap, StorageRecords, Items, Receipted;
    var extra := Some(ForeignRevision(run, name));
    AcceptedAgree(run, lock, b2, b3);
    NoForeignRecord(run, b2, b3, name);
    assert MayAdd(run, extra, Receipted(run, b2, b3, None));
    ExamplePasses(run, lock, b2, b3, None, extra);
    e := ExampleEvidence(run, b2, b3, None, extra);
    var items := Inventoried(run, b2, b3, None, extra);
    OneList(run, items);
    assert items[|items| - 1] == extra.value;
  }

  lemma NoForeignRecord(run: RunIdentity, b2: B2.Receipt, b3: B3.Receipt, name: string)
    requires RecordsAgree(Records(b2, b3)) && forall r :: r in Records(b2, b3) ==> r.Key() != (StatefulSet, name)
    ensures (StatefulSet, name) !in Receipted(run, b2, b3, None)
  {
    hide RecordsAgree, RecordMap;
    RecordMapHolds(Records(b2, b3));
  }

  // ----- for which locks a teardown can be authorised at all -----

  lemma {:induction false} DistinctVolumes(records: seq<StorageRecord>)
    requires forall i, j :: 0 <= i < j < |records| ==> records[i].volumeName != records[j].volumeName && records[i].volumeUid != records[j].volumeUid
    ensures VolumesDistinct(records)
    ensures forall n :: n in ExpectedVolumes(records) ==> exists i :: 0 <= i < |records| && records[i].volumeName == n
    ensures forall u :: u in VolumeUids(records) ==> exists i :: 0 <= i < |records| && records[i].volumeUid == u
  {
    if records != [] {
      DistinctVolumes(records[..|records| - 1]);
    }
  }

  lemma {:induction false} SameClass(records: seq<StorageRecord>, name: string)
    requires records != [] && forall i :: 0 <= i < |records| ==> records[i].storageClass == name
    ensures ExpectedClasses(records).Keys == {name}
  {
    if |records| > 1 {
      SameClass(records[..|records| - 1], name);
    } else {
      assert records[..0] == [];
    }
  }

  ghost function ExampleServing(run: RunIdentity, lock: Lock): B2.Receipt
    requires ServingExample.Usable(lock.serving)
  {
    ServingExample.Example(run, lock.serving, PipelineExample.Uid(lock.pipeline, 0))
  }

  ghost function ExamplePipeline(run: RunIdentity, lock: Lock): B3.Receipt
    requires PipelineExample.Usable(lock.pipeline)
  {
    PipelineExample.Example(run, lock.pipeline, PipelineExample.Storages(run, lock.pipeline, lock.serving.storageClass),
                            PipelineExample.Images(run, lock.pipeline))
  }

  lemma ExamplesAccepted(run: RunIdentity, lock: Lock)
    requires ServingExample.Usable(lock.serving) && PipelineExample.Usable(lock.pipeline)
    ensures B2.Accepts(run, ExampleServing(run, lock), lock.serving) && B3.Accepts(run, ExamplePipeline(run, lock), lock.pipeline)
  {
    hide B2.Accepts, B3.Accepts, PipelineExample.Usable, PipelineExample.Example, ServingExample.Example;
    PipelineExample.UidLength(lock.pipeline, 0);
    assert ServingExample.FreshNamespaceUid(PipelineExample.Uid(lock.pipeline, 0));
    assert lock.serving.storageClass != "";
    ServingExample.ExampleAccepted(run, lock.serving, PipelineExample.Uid(lock.pipeline, 0));
    PipelineExample.ExampleAccepted(run, lock.pipeline, lock.serving.storageClass);
  }

  lemma PipelineRecord(run: RunIdentity, lock: Lock, i: nat)
    requires PipelineExample.Usable(lock.pipeline) && i < |PipelineExample.Claims()|
    ensures var st := PipelineExample.StorageAt(run, lock.pipeline, lock.serving.storageClass, i);
            && st.volumeName == st.volumeUid == PipelineExample.Uid(lock.pipeline, i) && st.storageClass == lock.serving.storageClass
            && |st.volumeUid| == |lock.pipeline.clusterUid| + 1 + i && st.volumeUid[0] == 'u'
  {
    hide PipelineExample.Keys, PipelineExample.At, B3.CLAIMS;
    PipelineExample.UidLength(lock.pipeline, i);
  }

  lemma ServingRecord(run: RunIdentity, lock: Lock)
    requires ServingExample.Usable(lock.serving)
    ensures var st := ExampleServing(run, lock).storage;
            st.volumeName == "v" == st.volumeUid && st.storageClass == lock.serving.storageClass
  {
    hide ServingExample.Usable, ServingExample.Keys, ServingExample.At, ServingExample.Objects;
  }

  lemma ExampleRecords(run: RunIdentity, lock: Lock)
    requires ServingExample.Usable(lock.serving) && PipelineExample.Usable(lock.pipeline)
    ensures var records := StorageRecords(ExampleServing(run, lock), ExamplePipeline(run, lock));
            VolumesDistinct(records) && ExpectedClasses(records).Keys == {lock.serving.storageClass}
  {
    hide ServingExample.Usable, PipelineExample.Usable, ExampleServing, VolumesDistinct, ExpectedClasses, PipelineExample.StorageAt,
         PipelineExample.Storages, PipelineExample.Claims, PipelineExample.Images, PipelineExample.Objects, PipelineExample.Uid;
    ServingRecord(run, lock);
    PipelineExample.StoragesListed(run, lock.pipeline, lock.serving.storageClass);
    var records := StorageRecords(ExampleServing(run, lock), ExamplePipeline(run, lock));
    assert records[0].volumeName == "v" == records[0].volumeUid && records[0].storageClass == lock.serving.storageClass;
    forall j | 1 <= j < |records|
      ensures records[j].volumeName == records[j].volumeUid && records[j].storageClass == lock.serving.storageClass
      ensures |records[j].volumeUid| == |lock.pipeline.clusterUid| + j && records[j].volumeUid[0] == 'u'
    {
      PipelineRecord(run, lock, j - 1);
    }
    DistinctVolumes(records);
    SameClass(records, lock.serving.storageClass);
  }

  /** For every run, some evidence authorises a teardown exactly when both locks are usable. */
  lemma GuardsSatisfiableExactly(run: RunIdentity, lock: Lock)
    ensures (exists e: Evidence :: GuardsPass(run, lock, e)) <==> ServingExample.Usable(lock.serving) && PipelineExample.Usable(lock.pipeline)
  {
    hide *;
    if e: Evidence :| GuardsPass(run, lock, e) {
      PassingNeedsUsable(run, lock, e);
    }
    if ServingExample.Usable(lock.serving) && PipelineExample.Usable(lock.pipeline) {
      var e := UsableAuthorises(run, lock);
    }
  }

  lemma PassingNeedsUsable(run: RunIdentity, lock: Lock, e: Evidence)
    requires GuardsPass(run, lock, e)
    ensures ServingExample.Usable(lock.serving) && PipelineExample.Usable(lock.pipeline)
  {
    hide *;
    PassedReceipts(run, lock, e);
    ServingExample.UsableIfAccepted(run, e.recordedB2.value, lock.serving);
    PipelineExample.UsableIfAccepted(run, e.recordedB3.value, lock.pipeline);
  }

  lemma UsableAuthorises(run: RunIdentity, lock: Lock) returns (e: Evidence)
    requires ServingExample.Usable(lock.serving) && PipelineExample.Usable(lock.pipeline)
    ensures GuardsPass(run, lock, e)
  {
    var b2, b3 := ExampleServing(run, lock), ExamplePipeline(run, lock);
    hide *;
    ExamplesAccepted(run, lock);
    ExampleCompatible(run, lock);
    ExamplePasses(run, lock, b2, b3, None, None);
    e := ExampleEvidence(run, b2, b3, None, None);
  }

  lemma ExampleCompatible(run: RunIdentity, lock: Lock)
    requires ServingExample.Usable(lock.serving) && PipelineExample.Usable(lock.pipeline)
    ensures Compatible(ExampleServing(run, lock), ExamplePipeline(run, lock))
  {
    hide ServingExample.Usable, PipelineExample.Usable, ExampleServing, ExamplePipeline, VolumesDistinct, ExpectedClasses, StorageRecords;
    ExampleRecords(run, lock);
    SameNamespace(run, lock);
  }

  lemma SameNamespace(run: RunIdentity, lock: Lock)
    requires ServingExample.Usable(lock.serving) && PipelineExample.Usable(lock.pipeline)
    ensures ExampleServing(run, lock).namespaceUid == ExamplePipeline(run, lock).namespaceUid
  {
    hide ServingExample.Usable, PipelineExample.Usable;
  }
}
