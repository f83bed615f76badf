/**
 What the passed guards of the teardown mean for the profile that is about to be deleted, spelled out on the
 replies of the cluster: its namespaces, the listed objects, what derived objects are bound to, the volumes and
 the StorageClass, and the evidence (scripts/k8s/teardown.py).
 */
module DeletionScope {
  import opened Wrappers
  import opened Collections
  import opened Ownership
  import opened Inventory
  import opened Teardown
  import B2 = ServingReceipt
  import B3 = PipelineReceipt

  // ----- namespaces -----

  /** The four namespaces that Kubernetes itself keeps, and that of the run. */
  function ProfileNamespaces(run: RunIdentity): set<string> {
    {"default", "kube-system", "kube-public", "kube-node-lease", "it4931-k8s-" + run.runId}
  }

  /** Position i holds the run's only namespace, with the UID that both receipts recorded and the run's labels. */
  ghost predicate OwnNamespaceAt(run: RunIdentity, items: seq<NamespaceItem>, b2: B2.Receipt, b3: B3.Receipt, i: int) {
    && 0 <= i < |items| && items[i].name == "it4931-k8s-" + run.runId
    && (forall j :: 0 <= j < |items| && items[j].name == "it4931-k8s-" + run.runId ==> j == i)
    && items[i].uid != "" && items[i].uid == b2.namespaceUid == b3.namespaceUid
    && items[i].labels.Some? && OfRun(items[i].labels.value, run.runId)
  }

  /** Position i is the only one that holds the run's namespace. */
  ghost predicate OnlyAt(run: RunIdentity, items: seq<NamespaceItem>, i: int) {
    0 <= i < |items| && items[i].name == run.Namespace() && forall j :: 0 <= j < |items| && items[j].name == run.Namespace() ==> j == i
  }

  lemma {:induction false} RunNamespacesHold(run: RunIdentity, items: seq<NamespaceItem>)
    ensures forall x :: x in RunNamespaces(run, items) <==> x in items && x.name == run.Namespace()
    ensures RunNamespaces(run, items) == [] <==> forall i :: 0 <= i < |items| ==> items[i].name != run.Namespace()
    ensures |RunNamespaces(run, items)| == 1 <==> exists i :: OnlyAt(run, items, i)
  {
    if items != [] {
      var n := |items| - 1;
      RunNamespacesHold(run, items[..n]);
      assert items == items[..n] + [items[n]];
      OneMoreNamespace(run, items, n);
      hide OnlyAt, RunIdentity.Namespace;
      assert RunNamespaces(run, items[..n]) == [] && items[n].name == run.Namespace() ==> OnlyAt(run, items, n);
    }
  }

  lemma OneMoreNamespace(run: RunIdentity, items: seq<NamespaceItem>, n: nat)
    requires |items| == n + 1
    ensures items[n].name != run.Namespace() ==> forall i :: OnlyAt(run, items, i) <==> OnlyAt(run, items[..n], i)
    ensures items[n].name == run.Namespace() ==>
              forall i :: OnlyAt(run, items, i) <==> i == n && forall j :: 0 <= j < n ==> items[..n][j].name != run.Namespace()
  {
    hide RunIdentity.Namespace;
    forall i | 0 <= i < |items|
      ensures items[n].name != run.Namespace() ==> (OnlyAt(run, items, i) <==> OnlyAt(run, items[..n], i))
      ensures items[n].name == run.Namespace() ==>
                (OnlyAt(run, items, i) <==> i == n && forall j :: 0 <= j < n ==> items[..n][j].name != run.Namespace())
    {
      assert forall j :: 0 <= j < n ==> items[..n][j] == items[j];
    }
  }

  /** The namespace check accepts exactly the five namespaces, with the run's own one listed once and owned. */
  lemma NamespacesExactly(run: RunIdentity, items: seq<NamespaceItem>, b2: B2.Receipt, b3: B3.Receipt)
    ensures NamespacesExact(run, items, b2, b3) <==>
            && (set item | item in items :: item.name) == ProfileNamespaces(run)
            && exists i :: OwnNamespaceAt(run, items, b2, b3, i)
  {
    assert !OfRun(map[], run.runId);
    hide OfRun, Carries, RunIdentity.RunLabels, RunNamespaces;
    RunNamespacesHold(run, items);
    forall labels: Labels ensures Carries(labels, run.RunLabels()) <==> OfRun(labels, run.runId) {
      CarriesRunLabels(run, labels);
    }
    if |RunNamespaces(run, items)| == 1 {
      var own := RunNamespaces(run, items)[0];
      assert own in RunNamespaces(run, items);
      forall i | 0 <= i < |items| && items[i].name == run.Namespace() ensures items[i] == own {
        assert items[i] in RunNamespaces(run, items);
      }
      if NamespacesExact(run, items, b2, b3) {
        var i :| OnlyAt(run, items, i);
        assert OwnNamespaceAt(run, items, b2, b3, i);
      }
      if i :| OwnNamespaceAt(run, items, b2, b3, i) {
        assert NamespaceOwned(run, own, b2, b3);
      }
    }
    if i :| OwnNamespaceAt(run, items, b2, b3, i) {
      assert OnlyAt(run, items, i);
    }
  }

  // ----- the lists of objects -----

  lemma {:induction false} ItemsListed(lists: seq<ResourceList>)
    ensures forall o :: o in AllItems(lists) <==>
              exists i :: 0 <= i < |lists| && lists[i].items.Some? && o in lists[i].items.value
  {
    if lists != [] {
      var n := |lists| - 1;
      ItemsListed(lists[..n]);
      assert lists == lists[..n] + [lists[n]];
      forall o | o in AllItems(lists) ensures exists i :: 0 <= i < |lists| && lists[i].items.Some? && o in lists[i].items.value {
        if o in AllItems(lists[..n]) {
          var i :| 0 <= i < n && lists[..n][i].items.Some? && o in lists[..n][i].items.value;
          assert lists[i].items.Some? && o in lists[i].items.value;
        } else {
          assert lists[n].items.Some? && o in lists[n].items.value;
        }
      }
    }
  }

  /** Named, identified, and in the run namespace as far as it says. */
  predicate InRunNamespace(run: RunIdentity, o: LiveObject) {
    && (o.kind.OtherKind? ==> o.kind.name != "") && o.name != "" && o.uid != ""
    && (o.namespace.None? || o.namespace.value == "it4931-k8s-" + run.runId)
  }

  /** The two objects that every namespace has. */
  predicate KubernetesOwn(o: LiveObject) {
    || (o.kind.ServiceAccount? && o.name == "default")
    || (o.kind.ConfigMap? && o.name == "kube-root-ca.crt")
  }

  predicate SameMetadata(a: LiveObject, b: LiveObject) {
    a.uid == b.uid && a.labels.GetOr(map[]) == b.labels.GetOr(map[]) && a.owners == b.owners
  }

  ghost predicate AliasesAgree(items: seq<LiveObject>) {
    forall o, q :: o in items && q in items && o.kind == q.kind && o.name == q.name && !KubernetesOwn(o) ==> SameMetadata(o, q)
  }

  /** The scan accepts exactly the items in the run namespace whose API aliases show the same metadata. */
  lemma {:induction false} ScannableExactly(run: RunIdentity, items: seq<LiveObject>)
    ensures Scannable(run, items) <==> (forall o :: o in items ==> InRunNamespace(run, o)) && AliasesAgree(items)
  {
    if items != [] {
      var earlier, last := items[..|items| - 1], items[|items| - 1];
      ScannableExactly(run, earlier);
      assert items == earlier + [last];
      assert WellFormed(run, last) <==> InRunNamespace(run, last);
      assert last in items;
      hide WellFormed, InRunNamespace;
      if Scannable(run, earlier) {
        OneMoreAlias(run, earlier, last);
      }
      hide AliasesAgree;
    }
  }

  lemma OneMoreAlias(run: RunIdentity, earlier: seq<LiveObject>, last: LiveObject)
    requires Scannable(run, earlier) && AliasesAgree(earlier)
    ensures AliasesAgree(earlier + [last]) <==>
              (!SystemObject(last.Key()) && last.Key() in FirstLive(earlier) ==> last.AliasOf(FirstLive(earlier)[last.Key()]))
  {
    FirstLiveHolds(run, earlier);
    FirstLiveCovers(earlier);
    assert SystemObject(last.Key()) <==> KubernetesOwn(last);
    hide Scannable, FirstLive, SystemObject, KubernetesOwn;
    var items, key := earlier + [last], last.Key();
    assert forall o :: o in items <==> o in earlier || o == last;
    if key in FirstLive(earlier) && last.AliasOf(FirstLive(earlier)[key]) {
      forall o | o in earlier && o.kind == last.kind && o.name == last.name ensures SameMetadata(o, last) && SameMetadata(last, o) {
        assert o.Key() == key;
      }
    }
  }

  lemma {:induction false} FirstLiveCovers(items: seq<LiveObject>)
    ensures forall k :: k in FirstLive(items) <==> !SystemObject(k) && exists o :: o in items && o.Key() == k
    ensures forall k :: k in FirstLive(items) ==> FirstLive(items)[k] in items && FirstLive(items)[k].Key() == k
  {
    hide SystemObject;
    if items != [] {
      var earlier, last := items[..|items| - 1], items[|items| - 1];
      FirstLiveCovers(earlier);
      assert items == earlier + [last];
    }
  }

  // ----- the records of the two receipts -----

  lemma SameOwners(a: seq<Owner>, b: seq<Owner>)
    ensures RecordedRefs(a) == RecordedRefs(b) <==> a == b
  {
    if RecordedRefs(a) == RecordedRefs(b) {
      assert |a| == |RecordedRefs(a)| == |b|;
      forall i | 0 <= i < |a| ensures a[i] == b[i] {
        assert RecordedRefs(a)[i] == RecordedRefs(b)[i];
      }
    }
  }

  ghost predicate SameNameSameRecord(records: seq<ObjectRecord>) {
    forall r, q :: r in records && q in records && r.kind == q.kind && r.name == q.name ==>
      r.uid == q.uid && r.labels == q.labels && r.owners == q.owners
  }

  lemma SameIdentityExactly(r: ObjectRecord, q: ObjectRecord)
    ensures IdentityOf(r) == IdentityOf(q) <==> r.uid == q.uid && r.labels == q.labels && r.owners == q.owners
  {
    SameOwners(r.owners, q.owners);
  }

  /** The receipts may be merged exactly when records of one name have the same UID, labels and owners. */
  lemma {:induction false} RecordsAgreeExactly(records: seq<ObjectRecord>)
    ensures RecordsAgree(records) <==> SameNameSameRecord(records)
  {
    if records != [] {
      var earlier, last := records[..|records| - 1], records[|records| - 1];
      RecordsAgreeExactly(earlier);
      assert records == earlier + [last];
      if RecordsAgree(earlier) {
        OneMoreRecord(earlier, last);
      }
      hide SameNameSameRecord;
      assert SameNameSameRecord(records) ==> SameNameSameRecord(earlier) by { FewerRecords(earlier, last); }
    }
  }

  lemma FewerRecords(earlier: seq<ObjectRecord>, last: ObjectRecord)
    ensures SameNameSameRecord(earlier + [last]) ==> SameNameSameRecord(earlier)
  {
    assert forall r :: r in earlier ==> r in earlier + [last];
  }

  lemma OneMoreRecord(earlier: seq<ObjectRecord>, last: ObjectRecord)
    requires RecordsAgree(earlier) && SameNameSameRecord(earlier)
    ensures SameNameSameRecord(earlier + [last]) <==>
              (last.Key() in RecordMap(earlier) ==> RecordMap(earlier)[last.Key()] == IdentityOf(last))
  {
    RecordMapHolds(earlier);
    hide RecordsAgree, RecordMap, IdentityOf;
    assert forall r :: r in earlier + [last] <==> r in earlier || r == last;
    forall r | r in earlier
      ensures IdentityOf(r) == IdentityOf(last) <==> r.uid == last.uid && r.labels == last.labels && r.owners == last.owners
    {
      SameIdentityExactly(r, last);
    }
    if last.Key() in RecordMap(earlier) {
      var r :| r in earlier && r.Key() == last.Key();
      assert r in earlier + [last];
    }
  }

  // ----- storage -----

  /** The volume is the recorded one, bound to the recorded claim of the run namespace. */
  predicate BoundAsRecorded(run: RunIdentity, v: Volume, r: StorageRecord) {
    && v.name == r.volumeName && v.uid == r.volumeUid && v.claim.Some?
    && v.claim.value.namespace == "it4931-k8s-" + run.runId && v.claim.value.name == r.claimName && v.claim.value.uid == r.claimUid
  }

  ghost predicate NoVolumeTwice(records: seq<StorageRecord>) {
    forall i, j :: 0 <= i < j < |records| ==> records[i].volumeName != records[j].volumeName && records[i].volumeUid != records[j].volumeUid
  }

  lemma OneMoreVolume(records: seq<StorageRecord>)
    requires records != []
    ensures var earlier, last := records[..|records| - 1], records[|records| - 1];
            NoVolumeTwice(records) <==>
              NoVolumeTwice(earlier) && forall r :: r in earlier ==> r.volumeName != last.volumeName && r.volumeUid != last.volumeUid
  {
    var n := |records| - 1;
    var earlier := records[..n];
    assert forall i :: 0 <= i < n ==> earlier[i] == records[i] && records[i] in earlier;
  }

  lemma {:induction false} VolumesDistinctExactly(records: seq<StorageRecord>)
    ensures VolumesDistinct(records) <==> NoVolumeTwice(records)
    ensures forall n :: n in ExpectedVolumes(records) <==> exists r :: r in records && r.volumeName == n
    ensures forall u :: u in VolumeUids(records) <==> exists r :: r in records && r.volumeUid == u
  {
    if records != [] {
      var n := |records| - 1;
      VolumesDistinctExactly(records[..n]);
      OneMoreVolume(records);
      hide NoVolumeTwice;
      assert records == records[..n] + [records[n]];
    }
  }

  lemma {:induction false} VolumeNamesDistinctExactly(volumes: seq<Volume>)
    ensures VolumeNamesDistinct(volumes) <==> forall i, j :: 0 <= i < j < |volumes| ==> volumes[i].name != volumes[j].name
    ensures forall n :: n in ObservedVolumes(volumes) <==> exists v :: v in volumes && v.name == n
  {
    if volumes != [] {
      var n := |volumes| - 1;
      VolumeNamesDistinctExactly(volumes[..n]);
      assert volumes == volumes[..n] + [volumes[n]];
      assert forall i :: 0 <= i < n ==> volumes[..n][i] == volumes[i];
      if forall i, j :: 0 <= i < j < |volumes| ==> volumes[i].name != volumes[j].name {
        forall v | v in volumes[..n] ensures v.name != volumes[n].name {
          var i :| 0 <= i < n && volumes[i] == v;
        }
      }
      if VolumeNamesDistinct(volumes) {
        forall i, j | 0 <= i < j < |volumes| ensures volumes[i].name != volumes[j].name {
          assert volumes[i] in volumes[..n] || j < n;
        }
      }
    }
  }

  /** Every live volume is bound as a record says, and every record has its live volume. */
  ghost predicate VolumesMatch(run: RunIdentity, records: seq<StorageRecord>, volumes: seq<Volume>) {
    && (forall v :: v in volumes ==> exists r :: r in records && BoundAsRecorded(run, v, r))
    && (forall r :: r in records ==> exists v :: v in volumes && BoundAsRecorded(run, v, r))
  }

  lemma BindsAsRecorded(run: RunIdentity)
    ensures forall v: Volume, r: StorageRecord :: Binds(run, v, r) <==> BoundAsRecorded(run, v, r)
    ensures forall v: Volume, r: StorageRecord :: Binds(run, v, r) ==> v.name == r.volumeName
  {
  }

  lemma MapsToRecords(run: RunIdentity, records: seq<StorageRecord>, volumes: seq<Volume>)
    requires VolumesDistinct(records) && VolumeNamesDistinct(volumes) && VolumesExact(run, records, volumes)
    ensures VolumesMatch(run, records, volumes)
  {
    ExpectedVolumesHold(records);
    ObservedVolumesHold(volumes);
    BindsAsRecorded(run);
    hide VolumesDistinct, VolumeNamesDistinct, ExpectedVolumes, ObservedVolumes, Binds, BoundAsRecorded;
    var expected, observed := ExpectedVolumes(records), ObservedVolumes(volumes);
    forall v | v in volumes ensures exists r :: r in records && BoundAsRecorded(run, v, r) {
      assert observed[v.name] == v && Binds(run, v, expected[v.name]);
    }
    forall r | r in records ensures exists v :: v in volumes && BoundAsRecorded(run, v, r) {
      assert expected[r.volumeName] == r && Binds(run, observed[r.volumeName], r);
    }
  }

  lemma RecordsToMaps(run: RunIdentity, records: seq<StorageRecord>, volumes: seq<Volume>)
    requires VolumesDistinct(records) && VolumeNamesDistinct(volumes) && VolumesMatch(run, records, volumes)
    ensures VolumesExact(run, records, volumes)
  {
    ExpectedVolumesHold(records);
    ObservedVolumesHold(volumes);
    BindsAsRecorded(run);
    hide VolumesDistinct, VolumeNamesDistinct, ExpectedVolumes, ObservedVolumes, Binds, BoundAsRecorded;
    var expected, observed := ExpectedVolumes(records), ObservedVolumes(volumes);
    forall n | n in expected ensures n in observed && Binds(run, observed[n], expected[n]) {
      var v :| v in volumes && BoundAsRecorded(run, v, expected[n]);
    }
    forall n | n in observed ensures n in expected {
      var r :| r in records && BoundAsRecorded(run, observed[n], r);
    }
  }

  /**
   The volume check accepts exactly when no volume occurs twice among the records or the replies, and records
   and live volumes match.
   */
  lemma VolumesExactly(run: RunIdentity, records: seq<StorageRecord>, volumes: seq<Volume>)
    ensures VolumesExact(run, records, volumes) <==>
            && NoVolumeTwice(records)
            && (forall i, j :: 0 <= i < j < |volumes| ==> volumes[i].name != volumes[j].name)
            && VolumesMatch(run, records, volumes)
  {
    VolumesDistinctExactly(records);
    VolumeNamesDistinctExactly(volumes);
    hide Binds, VolumesDistinct, VolumeNamesDistinct, NoVolumeTwice, VolumesMatch, ExpectedVolumes, ObservedVolumes;
    if VolumesDistinct(records) && VolumeNamesDistinct(volumes) {
      if VolumesExact(run, records, volumes) {
        MapsToRecords(run, records, volumes);
      }
      if VolumesMatch(run, records, volumes) {
        RecordsToMaps(run, records, volumes);
      }
    }
  }

  lemma {:induction false} ExpectedClassesExactly(records: seq<StorageRecord>)
    ensures forall n :: n in ExpectedClasses(records) <==> exists r :: r in records && r.storageClass == n
    ensures records != [] ==> var last := records[|records| - 1];
              last.storageClass in ExpectedClasses(records) && ExpectedClasses(records)[last.storageClass] == last.storageClassUid
  {
    if records != [] {
      var n := |records| - 1;
      ExpectedClassesExactly(records[..n]);
      assert records == records[..n] + [records[n]];
    }
  }

  lemma {:induction false} ObservedClassesExactly(items: seq<StorageClassItem>)
    ensures forall n :: n in ObservedClasses(items) <==> exists s :: s in items && s.name == n
    ensures items != [] ==> var last := items[|items| - 1];
              last.name in ObservedClasses(items) && ObservedClasses(items)[last.name] == last.uid
  {
    if items != [] {
      var n := |items| - 1;
      ObservedClassesExactly(items[..n]);
      assert items == items[..n] + [items[n]];
    }
  }

  /** The StorageClass check accepts exactly one class, by name and by the UID recorded and listed last. */
  lemma ClassesExactly(records: seq<StorageRecord>, items: seq<StorageClassItem>)
    ensures ClassesExact(records, items) <==>
            && records != [] && items != []
            && (forall r :: r in records ==> r.storageClass == records[0].storageClass)
            && (forall s :: s in items ==> s.name == records[0].storageClass)
            && items[|items| - 1].uid == records[|records| - 1].storageClassUid
  {
    ExpectedClassesExactly(records);
    ObservedClassesExactly(items);
    var expected, observed := ExpectedClasses(records), ObservedClasses(items);
    if ClassesExact(records, items) {
      assert |expected.Keys| == 1 && records != [];
      var name := records[0].storageClass;
      assert records[0] in records && name in expected;
      Singleton(expected.Keys, name);
      forall r | r in records ensures r.storageClass == name {
        assert r.storageClass in expected.Keys;
      }
      forall s | s in items ensures s.name == name {
        assert s.name in observed.Keys;
      }
    } else if records != [] && items != [] && (forall r :: r in records ==> r.storageClass == records[0].storageClass)
              && (forall s :: s in items ==> s.name == records[0].storageClass) {
      var name := records[0].storageClass;
      assert records[|records| - 1] in records && items[|items| - 1] in items;
      assert expected.Keys == {name} && observed.Keys == {name};
      assert |expected| == |expected.Keys| == 1;
      assert observed[name] == items[|items| - 1].uid && expected[name] == records[|records| - 1].storageClassUid;
    }
  }

  // ----- what the receipts say about one name -----

  lemma RecordedIdentity(run: RunIdentity, b2: B2.Receipt, b3: B3.Receipt, jobUid: Option<string>, k: Key)
    requires RecordsAgree(Records(b2, b3)) && !k.0.Job?
    ensures k in Receipted(run, b2, b3, jobUid) <==> exists r :: r in Records(b2, b3) && r.Key() == k
    ensures forall r :: r in Records(b2, b3) && r.Key() == k ==> Receipted(run, b2, b3, jobUid)[k] == IdentityOf(r)
  {
    hide RecordsAgree, RecordMap, AcceptanceJobLabels, AcceptanceJob;
    RecordMapHolds(Records(b2, b3));
  }

  // ----- from the guards to the inventory -----

  lemma PassedInventory(run: RunIdentity, lock: Lock, e: Evidence)
    requires GuardsPass(run, lock, e)
    ensures e.recordedB2.Some? && e.recordedB3.Some? && LiveJob(run, e).Some?
    ensures var b2, b3, job := e.recordedB2.value, e.recordedB3.value, LiveJob(run, e).value;
            && InventoryExact(run, b2, b3, job.jobUid, job.podUid, e.replies)
            && (forall r :: r in Records(b2, b3) ==> !AcceptanceName(run, r.Key()))
  {
    hide ReceiptsMatchLive, InventoryExact, LiveJob, AcceptanceName;
    forall r | r in Records(e.recordedB2.value, e.recordedB3.value) ensures !AcceptanceName(run, r.Key()) {
      PassedNames(run, lock, e, r);
    }
  }

  /** Once a delete command is issued, the profile has the four namespaces of Kubernetes and the run's own one, and no other. */
  lemma DeletionSparesForeignNamespaces(run: RunIdentity, lock: Lock, e: Evidence)
    requires GuardsPass(run, lock, e)
    ensures e.recordedB2.Some? && e.recordedB3.Some? && e.replies.namespaces.Some?
    ensures (set item | item in e.replies.namespaces.value :: item.name)
            == {"default", "kube-system", "kube-public", "kube-node-lease", "it4931-k8s-" + run.runId}
    ensures exists i :: OwnNamespaceAt(run, e.replies.namespaces.value, e.recordedB2.value, e.recordedB3.value, i)
  {
    hide GuardsPass, LiveJob, NamespaceInventoryExact, StorageExact, NamespacesExact, OwnNamespaceAt, AcceptanceName;
    PassedInventory(run, lock, e);
    NamespacesExactly(run, e.replies.namespaces.value, e.recordedB2.value, e.recordedB3.value);
  }

  /** A discovered resource name: not empty, without blanks and slashes. */
  predicate ResourceName(name: string) {
    name != "" && forall i :: 0 <= i < |name| ==> name[i] !in " \t\n\r/"
  }

  lemma ResourceNameExactly(name: string)
    ensures ValidResourceName(name) <==> ResourceName(name)
  {
  }

  /**
   Once a delete command is issued, every discovered resource was listed, every item is in the run namespace
   and has a UID, and two listings of one object show the same metadata.
   */
  lemma DeletionReadEverything(run: RunIdentity, lock: Lock, e: Evidence)
    requires GuardsPass(run, lock, e)
    ensures e.replies.resources.Some? && e.replies.resources.value != []
    ensures forall i :: 0 <= i < |e.replies.resources.value| ==>
              ResourceName(e.replies.resources.value[i].resource) && e.replies.resources.value[i].items.Some?
    ensures forall o :: o in AllItems(e.replies.resources.value) ==> InRunNamespace(run, o)
    ensures var items := AllItems(e.replies.resources.value);
            forall o, q :: o in items && q in items && o.kind == q.kind && o.name == q.name && !KubernetesOwn(o) ==> SameMetadata(o, q)
  {
    hide GuardsPass, LiveJob, NamespacesExact, StorageExact, ObjectsExact, RecordsAgree, Scannable, AcceptanceName, AllItems,
         InRunNamespace, SameMetadata, ResourceName, ValidResourceName;
    PassedInventory(run, lock, e);
    ScannableExactly(run, AllItems(e.replies.resources.value));
    var lists := e.replies.resources.value;
    forall i | 0 <= i < |lists| ensures ResourceName(lists[i].resource) {
      ResourceNameExactly(lists[i].resource);
    }
  }

  /** The items of one of the lists that were fetched; the two objects that every namespace has are left out. */
  ghost predicate ListedAt(lists: seq<ResourceList>, i: int, o: LiveObject) {
    0 <= i < |lists| && lists[i].items.Some? && o in lists[i].items.value && !KubernetesOwn(o)
  }

  lemma ListedSomewhere(lists: seq<ResourceList>, o: LiveObject)
    ensures Listed(lists, o) <==> exists i :: ListedAt(lists, i, o)
  {
    ItemsListed(lists);
    assert SystemObject(o.Key()) <==> KubernetesOwn(o);
    hide AllItems, SystemObject, KubernetesOwn;
    if Listed(lists, o) {
      var i :| 0 <= i < |lists| && lists[i].items.Some? && o in lists[i].items.value;
      assert ListedAt(lists, i, o);
    }
  }

  /** The object is the one that a receipt recorded. */
  predicate AsRecorded(o: LiveObject, r: ObjectRecord) {
    && o.kind == r.kind && o.name == r.name && o.uid == r.uid && o.labels.GetOr(map[]) == r.labels
    && |o.owners| == |r.owners|
    && forall i :: 0 <= i < |o.owners| ==>
         && o.owners[i].kind == Some(r.owners[i].kind) && o.owners[i].name == Some(r.owners[i].name)
         && o.owners[i].uid == Some(r.owners[i].uid) && (r.owners[i].controller <==> o.owners[i].controller == Some(true))
  }

  lemma MatchedAsRecorded(o: LiveObject, r: ObjectRecord)
    ensures MatchesRecord(o, r) <==> AsRecorded(o, r)
  {
    if MatchesRecord(o, r) {
      assert |LiveRefs(o.owners)| == |RecordedRefs(r.owners)|;
      forall i | 0 <= i < |o.owners|
        ensures o.owners[i].kind == Some(r.owners[i].kind) && o.owners[i].name == Some(r.owners[i].name)
        ensures o.owners[i].uid == Some(r.owners[i].uid) && (r.owners[i].controller <==> o.owners[i].controller == Some(true))
      {
        assert LiveRefs(o.owners)[i] == RecordedRefs(r.owners)[i];
      }
    }
  }

  /** The object has one owner, and that is its controller. */
  predicate SoleController(o: LiveObject, kind: Kind, name: string, uid: Option<string>) {
    && |o.owners| == 1 && o.owners[0].kind == Some(kind) && o.owners[0].name == Some(name)
    && o.owners[0].uid == uid && o.owners[0].controller == Some(true)
  }

  /** The acceptance Job of the run, without owners. */
  ghost predicate AcceptanceJobObject(run: RunIdentity, o: LiveObject, uid: Option<string>) {
    && o.kind.Job? && o.name == "it4931-acceptance-" + run.runId && Some(o.uid) == uid && o.owners == []
    && o.labels.Some? && OfRun(o.labels.value, run.runId)
    && LabelIs(o.labels.value, "app.kubernetes.io/name", "pipeline-task")
    && LabelIs(o.labels.value, "app.kubernetes.io/part-of", "instacart-k8s-demo")
    && LabelIs(o.labels.value, "it4931.instacart.edu/component", "pipeline")
    && LabelIs(o.labels.value, "it4931.instacart.edu/step", "acceptance")
    && o.labels.value.Keys == {"it4931.instacart.edu/owner", "it4931.instacart.edu/run-id", "app.kubernetes.io/managed-by",
                               "app.kubernetes.io/name", "app.kubernetes.io/part-of", "it4931.instacart.edu/component",
                               "it4931.instacart.edu/step"}
  }

  /** The Pod of the acceptance Job. */
  ghost predicate AcceptancePodObject(run: RunIdentity, o: LiveObject, jobUid: Option<string>, uid: Option<string>) {
    && o.kind.Pod? && HasPrefix(o.name, "it4931-acceptance-" + run.runId + "-") && Some(o.uid) == uid
    && SoleController(o, Job, "it4931-acceptance-" + run.runId, jobUid)
    && o.labels.Some? && OfRun(o.labels.value, run.runId)
    && LabelIs(o.labels.value, "app.kubernetes.io/name", "pipeline-task")
    && LabelIs(o.labels.value, "it4931.instacart.edu/component", "pipeline")
    && LabelIs(o.labels.value, "it4931.instacart.edu/role", "pipeline")
    && LabelIs(o.labels.value, "it4931.instacart.edu/step", "acceptance")
    && o.labels.value.Keys == {"it4931.instacart.edu/owner", "it4931.instacart.edu/run-id", "app.kubernetes.io/managed-by",
                               "app.kubernetes.io/name", "it4931.instacart.edu/component",
                               "it4931.instacart.edu/role", "it4931.instacart.edu/step"}
  }

  lemma JobLabelsListed(run: RunIdentity)
    ensures var labels := AcceptanceJobLabels(run);
            && OfRun(labels, run.runId)
            && LabelIs(labels, "app.kubernetes.io/name", "pipeline-task") && LabelIs(labels, "app.kubernetes.io/part-of", "instacart-k8s-demo")
            && LabelIs(labels, "it4931.instacart.edu/component", "pipeline") && LabelIs(labels, "it4931.instacart.edu/step", "acceptance")
  {
  }

  lemma JobLabelKeys(run: RunIdentity)
    ensures AcceptanceJobLabels(run).Keys == {"it4931.instacart.edu/owner", "it4931.instacart.edu/run-id", "app.kubernetes.io/managed-by",
                               "app.kubernetes.io/name", "app.kubernetes.io/part-of", "it4931.instacart.edu/component",
                               "it4931.instacart.edu/step"}
  {
  }

  lemma PodLabelsListed(run: RunIdentity)
    ensures var labels := AcceptancePodLabels(run);
            && OfRun(labels, run.runId)
            && LabelIs(labels, "app.kubernetes.io/name", "pipeline-task") && LabelIs(labels, "it4931.instacart.edu/component", "pipeline")
            && LabelIs(labels, "it4931.instacart.edu/role", "pipeline") && LabelIs(labels, "it4931.instacart.edu/step", "acceptance")
  {
  }

  lemma PodLabelKeys(run: RunIdentity)
    ensures AcceptancePodLabels(run).Keys == {"it4931.instacart.edu/owner", "it4931.instacart.edu/run-id", "app.kubernetes.io/managed-by",
                               "app.kubernetes.io/name", "it4931.instacart.edu/component",
                               "it4931.instacart.edu/role", "it4931.instacart.edu/step"}
  {
  }

  lemma AcceptanceNamed(run: RunIdentity)
    ensures AcceptanceJob(run) == "it4931-acceptance-" + run.runId
    ensures AcceptanceJob(run) + "-" == "it4931-acceptance-" + run.runId + "-"
  {
    assert "it4931-" + "acceptance" + "-" == "it4931-acceptance-";
  }

  lemma AccountSpelledOut(run: RunIdentity, o: LiveObject, records: seq<ObjectRecord>, jobUid: Option<string>, podUid: Option<string>)
    requires AccountedFor(run, o, records, jobUid, podUid)
    ensures || (exists r :: r in records && AsRecorded(o, r))
            || AcceptanceJobObject(run, o, jobUid)
            || AcceptancePodObject(run, o, jobUid, podUid)
  {
    hide AcceptanceJobLabels, AcceptancePodLabels, OfRun, LabelIs, HasPrefix;
    JobLabelsListed(run);
    PodLabelsListed(run);
    JobLabelKeys(run);
    PodLabelKeys(run);
    AcceptanceNamed(run);
    hide AcceptanceJob;
    if r :| r in records && MatchesRecord(o, r) {
      MatchedAsRecorded(o, r);
    } else if IsAcceptanceJob(run, o, jobUid) {
      assert |LiveRefs(o.owners)| == 0;
      SomeLabels(run, o);
    } else {
      SomeLabels(run, o);
      assert |LiveRefs(o.owners)| == 1 && LiveRefs(o.owners)[0] == RefOf(o.owners[0]);
      assert SoleController(o, Job, "it4931-acceptance-" + run.runId, jobUid);
      assert AcceptancePodObject(run, o, jobUid, podUid);
    }
  }

  lemma SomeLabels(run: RunIdentity, o: LiveObject)
    requires o.LabelsOrNone() != map[]
    ensures o.labels.Some? && o.labels.value == o.LabelsOrNone()
  {
  }

  /**
   Once a delete command is issued, every listed item other than the two objects of every namespace is a
   recorded object, the acceptance Job or its Pod, or an Event, a ControllerRevision, an Endpoints object or an
   EndpointSlice.
   */
  lemma DeletionReachesNothingElse(run: RunIdentity, lock: Lock, e: Evidence, i: int, o: LiveObject)
    requires GuardsPass(run, lock, e) && ListedAt(e.replies.resources.value, i, o)
    ensures var job := LiveJob(run, e).value;
            || (exists r :: (r in e.recordedB2.value.objects || r in e.recordedB3.value.objects) && AsRecorded(o, r))
            || AcceptanceJobObject(run, o, job.jobUid)
            || AcceptancePodObject(run, o, job.jobUid, job.podUid)
            || o.kind.Event? || o.kind.ControllerRevision? || o.kind.Endpoints? || o.kind.EndpointSlice?
  {
    hide GuardsPass, LiveJob, AcceptanceName, AcceptanceJobObject, AcceptancePodObject, AsRecorded, AccountedFor, AllItems, FirstLive,
         DerivedAuthorised, DerivedOwned, Receipted, AuthorisedUids, OwnersIdentified, Listed, ListedAt;
    PassedInventory(run, lock, e);
    var b2, b3, job := e.recordedB2.value, e.recordedB3.value, LiveJob(run, e).value;
    ListedSomewhere(e.replies.resources.value, o);
    DeletionReachesOnlyOwnedObjects(run, lock, e, o);
    if AccountedFor(run, o, Records(b2, b3), job.jobUid, job.podUid) {
      AccountSpelledOut(run, o, Records(b2, b3), job.jobUid, job.podUid);
    }
  }

  /** The first listing of the object, which is the one that was checked. */
  lemma CheckedListing(run: RunIdentity, lock: Lock, e: Evidence, i: int, o: LiveObject) returns (first: LiveObject)
    requires GuardsPass(run, lock, e) && ListedAt(e.replies.resources.value, i, o)
    ensures first.kind == o.kind && first.name == o.name && SameMetadata(first, o)
    ensures var b2, b3, job := e.recordedB2.value, e.recordedB3.value, LiveJob(run, e).value;
            var receipted, live := Receipted(run, b2, b3, job.jobUid), FirstLive(AllItems(e.replies.resources.value));
            && o.Key() in live && first == live[o.Key()]
            && DerivedAuthorised(run, first, receipted, AuthorisedUids(receipted, b2, b3), live)
  {
    hide GuardsPass, LiveJob, AcceptanceName, AccountedFor, AllItems, FirstLive, DerivedAuthorised, DerivedOwned, Receipted,
         AuthorisedUids, OwnersIdentified, Listed, ListedAt, Scannable;
    PassedInventory(run, lock, e);
    ListedSomewhere(e.replies.resources.value, o);
    DeletionReachesOnlyOwnedObjects(run, lock, e, o);
    PassedScan(run, lock, e);
    first := ListedItem(run, e.replies.resources.value, o);
  }

  lemma PassedScan(run: RunIdentity, lock: Lock, e: Evidence)
    requires GuardsPass(run, lock, e)
    ensures e.recordedB2.Some? && e.recordedB3.Some? && e.replies.resources.Some? && LiveJob(run, e).Some?
    ensures Scannable(run, AllItems(e.replies.resources.value))
    ensures RecordsAgree(Records(e.recordedB2.value, e.recordedB3.value))
  {
    hide ReceiptsMatchLive, NamespacesExact, StorageExact, ObjectsExact, RecordsAgree, Discovered, AllItems, Scannable, LiveJob;
  }

  /**
   Once a delete command is issued, every ControllerRevision carries the run's labels and has a StatefulSet as
   its one controller: the recorded one of that name with its UID, or, when none is recorded, one given without UID.
   */
  lemma DeletionReachesRevisions(run: RunIdentity, lock: Lock, e: Evidence, i: int, o: LiveObject)
    requires GuardsPass(run, lock, e) && ListedAt(e.replies.resources.value, i, o) && o.kind.ControllerRevision?
    ensures |o.owners| == 1 && o.owners[0].kind == Some(StatefulSet) && o.owners[0].controller == Some(true)
    ensures OfRun(o.labels.GetOr(map[]), run.runId)
    ensures var records := e.recordedB2.value.objects + e.recordedB3.value.objects;
            && (o.owners[0].uid.Some? ==>
                  exists r :: r in records && r.kind.StatefulSet? && o.owners[0].name == Some(r.name) && o.owners[0].uid == Some(r.uid))
            && (o.owners[0].uid.None? ==>
                  forall r :: r in records && r.kind.StatefulSet? ==> o.owners[0].name != Some(r.name))
  {
    hide GuardsPass, LiveJob, AllItems, FirstLive, Receipted, AuthorisedUids, ListedAt, Scannable, RecordsAgree, Carries, OfRun,
         RunIdentity.RunLabels;
    PassedScan(run, lock, e);
    var b2, b3, job := e.recordedB2.value, e.recordedB3.value, LiveJob(run, e).value;
    var first := CheckedListing(run, lock, e, i, o);
    CarriesRunLabels(run, first.LabelsOrNone());
    if first.owners[0].name.Some? {
      RecordedIdentity(run, b2, b3, job.jobUid, (StatefulSet, first.owners[0].name.value));
    }
  }

  /** The Service that stands behind an Endpoints object, by its name, or an EndpointSlice, by its label. */
  predicate NamesService(o: LiveObject, service: string) {
    if o.kind.Endpoints? then o.name == service
    else LabelIs(o.labels.GetOr(map[]), "kubernetes.io/service-name", service)
  }

  /**
   Once a delete command is issued, every Endpoints object and every EndpointSlice belongs to a recorded Service
   that is listed with the recorded UID and labels, and no other owner has it; only Endpoints may lack the owner.
   */
  lemma DeletionReachesEndpoints(run: RunIdentity, lock: Lock, e: Evidence, i: int, o: LiveObject)
    requires GuardsPass(run, lock, e) && ListedAt(e.replies.resources.value, i, o) && (o.kind.Endpoints? || o.kind.EndpointSlice?)
    ensures exists r, s :: r in e.recordedB2.value.objects + e.recordedB3.value.objects && r.kind.Service? && NamesService(o, r.name)
              && s in AllItems(e.replies.resources.value) && s.kind.Service? && s.name == r.name && s.uid == r.uid && s.labels == Some(r.labels)
              && (SoleController(o, Service, r.name, Some(r.uid)) || (o.kind.Endpoints? && o.owners == []))
  {
    hide GuardsPass, LiveJob, AllItems, FirstLive, Receipted, AuthorisedUids, ListedAt, Scannable, RecordsAgree, TargetsApproved;
    PassedScan(run, lock, e);
    var b2, b3, job := e.recordedB2.value, e.recordedB3.value, LiveJob(run, e).value;
    var first := CheckedListing(run, lock, e, i, o);
    var live, receipted := FirstLive(AllItems(e.replies.resources.value)), Receipted(run, b2, b3, job.jobUid);
    FirstLiveCovers(AllItems(e.replies.resources.value));
    assert ServiceResolves(first, receipted, live);
    var k := (Service, ServiceName(first).value);
    RecordedIdentity(run, b2, b3, job.jobUid, k);
    var r :| r in Records(b2, b3) && r.Key() == k;
    var s := live[k];
    assert NamesService(o, r.name);
    assert s in AllItems(e.replies.resources.value) && s.Key() == k;
    if o.owners != [] {
      assert LiveRefs(first.owners)[0] == RefOf(first.owners[0]);
      assert SoleController(o, Service, r.name, Some(r.uid));
    }
  }

  /** The Pod that an address names: recorded, listed as recorded in the run namespace, and selected. */
  ghost predicate ApprovedPod(run: RunIdentity, t: Target, selector: Labels, r: ObjectRecord, p: LiveObject) {
    && t.kind.Pod? && (t.apiVersion == None || t.apiVersion == Some("v1")) && t.namespace == "it4931-k8s-" + run.runId
    && r.kind.Pod? && t.name == r.name && t.uid == r.uid && AsRecorded(p, r) && p.owners != []
    && p.namespace == Some("it4931-k8s-" + run.runId)
    && forall key :: key in selector ==> key in r.labels && r.labels[key] == selector[key]
  }

  /** The address stands for such a Pod, and is one of its current addresses. */
  ghost predicate ApprovedAddress(run: RunIdentity, a: Address, selector: Labels, records: seq<ObjectRecord>, items: seq<LiveObject>) {
    && a.target.Some? && a.ip.Some?
    && exists r, p :: r in records && p in items && ApprovedPod(run, a.target.value, selector, r, p) && a.ip in p.podIps && None !in p.podIps
  }

  /**
   Once a delete command is issued, every address of every Endpoints object, ready or not, stands for a recorded
   Pod that the Service selects, there is at least one, and the selector of the Service is not empty.
   */
  lemma DeletionReachesTargets(run: RunIdentity, lock: Lock, e: Evidence, i: int, o: LiveObject) returns (first: LiveObject, service: LiveObject)
    requires GuardsPass(run, lock, e) && ListedAt(e.replies.resources.value, i, o) && o.kind.Endpoints?
    ensures first in AllItems(e.replies.resources.value) && first.kind.Endpoints? && first.name == o.name && SameMetadata(first, o)
    ensures service in AllItems(e.replies.resources.value) && service.kind.Service? && service.name == o.name
    ensures service.selector != map[] && "" !in service.selector
    ensures service.namespace == first.namespace == Some("it4931-k8s-" + run.runId)
    ensures exists subset :: subset in first.subsets && subset.addresses + subset.notReady != []
    ensures forall subset, a :: subset in first.subsets && (a in subset.addresses || a in subset.notReady) ==>
              ApprovedAddress(run, a, service.selector, e.recordedB2.value.objects + e.recordedB3.value.objects,
                              AllItems(e.replies.resources.value))
  {
    hide GuardsPass, LiveJob, AllItems, FirstLive, Receipted, AuthorisedUids, ListedAt, Scannable, RecordsAgree, ServiceResolves,
         AddressApproved, ApprovedAddress;
    PassedScan(run, lock, e);
    var b2, b3, job := e.recordedB2.value, e.recordedB3.value, LiveJob(run, e).value;
    first := CheckedListing(run, lock, e, i, o);
    var items := AllItems(e.replies.resources.value);
    var live, receipted := FirstLive(items), Receipted(run, b2, b3, job.jobUid);
    FirstLiveCovers(items);
    ServiceIsLive(first, receipted, live);
    service := live[(Service, o.name)];
    assert service.Key() == (Service, o.name);
    forall subset, a | subset in first.subsets && (a in subset.addresses || a in subset.notReady)
      ensures ApprovedAddress(run, a, service.selector, Records(b2, b3), items)
    {
      assert a in SubsetAddresses(subset);
      AddressSpelledOut(run, b2, b3, job.jobUid, a, service.selector, items);
    }
  }

  lemma ServiceIsLive(o: LiveObject, expected: map<Key, Identity>, live: map<Key, LiveObject>)
    requires o.kind.Endpoints? && ServiceResolves(o, expected, live)
    ensures (Service, o.name) in live
  {
  }

  lemma AddressSpelledOut(run: RunIdentity, b2: B2.Receipt, b3: B3.Receipt, jobUid: Option<string>, a: Address, selector: Labels,
                          items: seq<LiveObject>)
    requires RecordsAgree(Records(b2, b3))
    requires AddressApproved(run, a, selector, Receipted(run, b2, b3, jobUid), FirstLive(items))
    ensures ApprovedAddress(run, a, selector, Records(b2, b3), items)
  {
    hide Receipted, FirstLive, RecordsAgree, AsRecorded;
    var t := a.target.value;
    var live, receipted := FirstLive(items), Receipted(run, b2, b3, jobUid);
    RecordedIdentity(run, b2, b3, jobUid, (Pod, t.name));
    FirstLiveCovers(items);
    var r :| r in Records(b2, b3) && r.Key() == (Pod, t.name);
    var p := live[(Pod, t.name)];
    assert p.Key() == (Pod, t.name) && p.AsIdentity() == IdentityOf(r);
    assert MatchesRecord(p, r);
    MatchedAsRecorded(p, r);
    assert ApprovedPod(run, t, selector, r, p);
  }

  // ----- what authorises a derived object -----

  /** A revision is authorised exactly when it is labelled and one StatefulSet controls it, with the expected UID if one is expected. */
  lemma RevisionExactly(run: RunIdentity, o: LiveObject, expected: map<Key, Identity>)
    ensures RevisionAuthorised(run, o, expected) <==>
            && |o.owners| == 1 && o.owners[0].kind == Some(StatefulSet) && o.owners[0].controller == Some(true)
            && OfRun(o.labels.GetOr(map[]), run.runId)
            && (o.owners[0].uid == if o.owners[0].name.Some? && (StatefulSet, o.owners[0].name.value) in expected
                                   then Some(expected[(StatefulSet, o.owners[0].name.value)].uid) else None)
  {
    CarriesRunLabels(run, o.labels.GetOr(map[]));
    hide Carries, OfRun, RunIdentity.RunLabels;
  }

  /** The Service is expected, and live with the expected UID and labels; it alone controls the object, or nothing owns Endpoints. */
  ghost predicate ServiceBehind(o: LiveObject, service: string, expected: map<Key, Identity>, live: map<Key, LiveObject>) {
    && NamesService(o, service) && (Service, service) in expected && (Service, service) in live
    && live[(Service, service)].uid == expected[(Service, service)].uid
    && live[(Service, service)].labels == Some(expected[(Service, service)].labels)
    && (SoleController(o, Service, service, Some(expected[(Service, service)].uid)) || (o.kind.Endpoints? && o.owners == []))
  }

  /** An Endpoints object or EndpointSlice resolves exactly when such a Service stands behind it. */
  lemma ServiceExactly(o: LiveObject, expected: map<Key, Identity>, live: map<Key, LiveObject>)
    requires o.kind.Endpoints? || o.kind.EndpointSlice?
    ensures ServiceResolves(o, expected, live) <==> exists service :: ServiceBehind(o, service, expected, live)
  {
    assert |LiveRefs(o.owners)| == |o.owners|;
    if ServiceResolves(o, expected, live) {
      var service := ServiceName(o).value;
      if o.owners != [] {
        assert LiveRefs(o.owners)[0] == RefOf(o.owners[0]);
      }
      assert ServiceBehind(o, service, expected, live);
    }
    if service :| ServiceBehind(o, service, expected, live) {
      assert ServiceName(o) == Some(service);
      if o.owners != [] {
        assert LiveRefs(o.owners) == [RefOf(o.owners[0])];
      }
    }
  }

  /** The address stands for an expected Pod, live as expected, that the Service selects, and is one of its addresses. */
  predicate ExpectedAddress(run: RunIdentity, a: Address, selector: Labels, expected: map<Key, Identity>, live: map<Key, LiveObject>) {
    && a.ip.Some? && a.target.Some?
    && var t := a.target.value;
       && t.kind.Pod? && (t.apiVersion == None || t.apiVersion == Some("v1")) && t.namespace == "it4931-k8s-" + run.runId
       && t.name != "" && t.uid != "" && (Pod, t.name) in expected && (Pod, t.name) in live
       && var pod, record := live[(Pod, t.name)], expected[(Pod, t.name)];
          && pod.uid == t.uid == record.uid && pod.namespace == Some("it4931-k8s-" + run.runId)
          && pod.labels.GetOr(map[]) == record.labels && pod.owners != [] && LiveRefs(pod.owners) == record.owners
          && (forall key :: key in selector ==> key in record.labels && record.labels[key] == selector[key])
          && a.ip in pod.podIps && None !in pod.podIps
  }

  lemma AddressExactly(run: RunIdentity, a: Address, selector: Labels, expected: map<Key, Identity>, live: map<Key, LiveObject>)
    ensures AddressApproved(run, a, selector, expected, live) <==> ExpectedAddress(run, a, selector, expected, live)
  {
  }

  /**
   Endpoints are authorised exactly when their Service has a usable selector, there is an address, and every
   address, ready or not, stands for such a Pod.
   */
  lemma TargetsExactly(run: RunIdentity, endpoints: LiveObject, service: LiveObject, expected: map<Key, Identity>, live: map<Key, LiveObject>)
    ensures TargetsApproved(run, endpoints, service, expected, live) <==>
            && endpoints.namespace == service.namespace == Some("it4931-k8s-" + run.runId)
            && service.selector != map[] && "" !in service.selector
            && (exists subset :: subset in endpoints.subsets && (subset.addresses != [] || subset.notReady != []))
            && forall subset, a :: subset in endpoints.subsets && (a in subset.addresses || a in subset.notReady) ==>
                 ExpectedAddress(run, a, service.selector, expected, live)
  {
    forall a: Address
      ensures AddressApproved(run, a, service.selector, expected, live) <==> ExpectedAddress(run, a, service.selector, expected, live)
    {
      AddressExactly(run, a, service.selector, expected, live);
    }
    hide AddressApproved, ExpectedAddress;
    forall subset: Subset
      ensures SubsetAddresses(subset) != [] <==> subset.addresses != [] || subset.notReady != []
      ensures forall a :: a in SubsetAddresses(subset) <==> a in subset.addresses || a in subset.notReady
    {
    }
  }

  // ----- the acceptance Pod -----

  /** The Pod of the acceptance Job, by its owner, its labels and its name. */
  ghost predicate BoundAcceptancePod(run: RunIdentity, pod: LiveObject, jobUid: Option<string>) {
    && SoleController(pod, Job, "it4931-acceptance-" + run.runId, jobUid)
    && HasPrefix(pod.name, "it4931-acceptance-" + run.runId + "-")
    && forall key :: key in AcceptancePodLabels(run) ==> LabelIs(pod.labels.GetOr(map[]), key, AcceptancePodLabels(run)[key])
  }

  /** The acceptance Pod is found exactly when one Pod has its UID, and that Pod is the acceptance Job's. */
  lemma AcceptancePodExactly(run: RunIdentity, live: map<Key, LiveObject>, jobUid: Option<string>, podUid: string)
    ensures AcceptancePodFound(run, live, jobUid, Some(podUid)) <==>
            exists k :: k in live && k.0.Pod? && live[k].uid == podUid && BoundAcceptancePod(run, live[k], jobUid)
              && forall other :: other in live && other.0.Pod? && live[other].uid == podUid ==> other == k
  {
    AcceptanceNamed(run);
    hide AcceptanceJob, AcceptancePodLabels, HasPrefix;
    var found := PodsWithUid(live, podUid);
    if |found| == 1 {
      var k := Inhabitant(found);
      Singleton(found, k);
      assert AcceptancePodBound(run, live[k], jobUid) <==> BoundAcceptancePod(run, live[k], jobUid);
      forall other | other in live && other.0.Pod? && live[other].uid == podUid ensures other == k {
        assert other in found;
      }
    }
    if k :| k in live && k.0.Pod? && live[k].uid == podUid && BoundAcceptancePod(run, live[k], jobUid)
            && forall other :: other in live && other.0.Pod? && live[other].uid == podUid ==> other == k {
      assert found == {k};
    }
  }

  // ----- storage of the profile -----

  predicate SameStorage(r: StorageRecord, st: B3.Storage) {
    && r.volumeName == st.volumeName && r.volumeUid == st.volumeUid && r.claimName == st.claimName && r.claimUid == st.claimUid
    && r.storageClass == st.storageClass && r.storageClassUid == st.storageClassUid
  }

  /** What one of the two receipts recorded about one volume. */
  ghost predicate RecordedStorage(b2: B2.Receipt, b3: B3.Receipt, r: StorageRecord) {
    || (&& r.volumeName == b2.storage.volumeName && r.volumeUid == b2.storage.volumeUid
        && r.claimName == b2.storage.claimName && r.claimUid == b2.storage.claimUid
        && r.storageClass == b2.storage.storageClass && r.storageClassUid == b2.storage.storageClassUid)
    || exists st :: st in b3.storage && SameStorage(r, st)
  }

  lemma RecordsOfStorage(b2: B2.Receipt, b3: B3.Receipt)
    ensures forall r :: r in StorageRecords(b2, b3) <==> RecordedStorage(b2, b3, r)
    ensures |StorageRecords(b2, b3)| == 1 + |b3.storage|
  {
    var records := StorageRecords(b2, b3);
    forall r | r in records ensures RecordedStorage(b2, b3, r) {
      var i :| 0 <= i < |records| && records[i] == r;
      if i > 0 {
        assert b3.storage[i - 1] in b3.storage;
      }
    }
    forall r | RecordedStorage(b2, b3, r) ensures r in records {
      if st :| st in b3.storage && SameStorage(r, st) {
        var i :| 0 <= i < |b3.storage| && b3.storage[i] == st;
        assert records[1 + i] == r;
      } else {
        assert records[0] == r;
      }
    }
  }

  lemma ClassesOfStorage(b2: B2.Receipt, b3: B3.Receipt)
    ensures |StorageRecords(b2, b3)| == 1 + |b3.storage| && StorageRecords(b2, b3)[0].storageClass == b2.storage.storageClass
    ensures forall i :: 0 <= i < |b3.storage| ==> b3.storage[i].storageClass == StorageRecords(b2, b3)[1 + i].storageClass
    ensures StorageRecords(b2, b3)[|b3.storage|].storageClassUid
            == if b3.storage == [] then b2.storage.storageClassUid else b3.storage[|b3.storage| - 1].storageClassUid
  {
  }

  /** Once a delete command is issued, the volumes of the profile are exactly those recorded, each bound to its recorded claim. */
  lemma DeletionReachesRecordedStorage(run: RunIdentity, lock: Lock, e: Evidence)
    requires GuardsPass(run, lock, e)
    ensures e.recordedB2.Some? && e.recordedB3.Some? && e.replies.volumes.Some?
    ensures var b2, b3, volumes := e.recordedB2.value, e.recordedB3.value, e.replies.volumes.value;
            && (forall v :: v in volumes ==> exists r :: RecordedStorage(b2, b3, r) && BoundAsRecorded(run, v, r))
            && (forall r :: RecordedStorage(b2, b3, r) ==> exists v :: v in volumes && BoundAsRecorded(run, v, r))
            && |volumes| == 1 + |b3.storage|
  {
    hide GuardsPass, LiveJob, AcceptanceName, NamespacesExact, NamespaceInventoryExact, VolumesExact, ClassesExact, NoVolumeTwice,
         StorageRecords, RecordedStorage, BoundAsRecorded;
    PassedInventory(run, lock, e);
    var b2, b3, volumes := e.recordedB2.value, e.recordedB3.value, e.replies.volumes.value;
    var records := StorageRecords(b2, b3);
    VolumesExactly(run, records, volumes);
    VolumesBijectWithRecords(run, records, volumes);
    RecordsOfStorage(b2, b3);
  }

  /** Once a delete command is issued, the profile has one StorageClass, which every storage record names. */
  lemma DeletionReachesRecordedClass(run: RunIdentity, lock: Lock, e: Evidence)
    requires GuardsPass(run, lock, e)
    ensures e.recordedB2.Some? && e.recordedB3.Some? && e.replies.storageClasses.Some?
    ensures var b2, b3, classes := e.recordedB2.value, e.recordedB3.value, e.replies.storageClasses.value;
            && classes != []
            && (forall s :: s in classes ==> s.name == b2.storage.storageClass)
            && (forall st :: st in b3.storage ==> st.storageClass == b2.storage.storageClass)
            && (classes[|classes| - 1].uid == if b3.storage == [] then b2.storage.storageClassUid else b3.storage[|b3.storage| - 1].storageClassUid)
  {
    hide GuardsPass, LiveJob, AcceptanceName, NamespacesExact, NamespaceInventoryExact, VolumesExact, ClassesExact, StorageRecords;
    PassedInventory(run, lock, e);
    var records := StorageRecords(e.recordedB2.value, e.recordedB3.value);
    ClassesExactly(records, e.replies.storageClasses.value);
    ClassesOfStorage(e.recordedB2.value, e.recordedB3.value);
    forall st | st in e.recordedB3.value.storage ensures st.storageClass == records[0].storageClass {
      var i :| 0 <= i < |e.recordedB3.value.storage| && e.recordedB3.value.storage[i] == st;
      assert records[1 + i] in records;
    }
  }

  // ----- the evidence -----

  /**
   Once a delete command is issued, execution was asked for, the lock is valid, the output path is new, failure
   evidence was captured, both receipts are accepted and match the live cluster, and an acceptance receipt
   authorises the teardown of this cluster and namespace.
   */
  lemma DeletionWasAuthorised(run: RunIdentity, lock: Lock, e: Evidence)
    requires GuardsPass(run, lock, e)
    ensures e.execute && e.lockValid && e.outputIsNew && e.failureCaptured
    ensures e.recordedB2.Some? && B2.Accepts(run, e.recordedB2.value, lock.serving)
    ensures e.liveB2.Some? && B2.SameEvidence(e.recordedB2.value, e.liveB2.value)
    ensures e.recordedB3.Some? && B3.Accepts(run, e.recordedB3.value, lock.pipeline) && e.liveB3 == e.recordedB3
    ensures e.acceptance.Some? ==>
              && e.acceptance.value.bindsRun && e.acceptance.value.scopeAuthorises
              && e.acceptance.value.checksValid && e.acceptance.value.artifactsValid
              && e.acceptance.value.clusterUid == e.recordedB3.value.clusterUid
              && e.acceptance.value.namespaceUid == e.recordedB3.value.namespaceUid
  {
    hide InventoryExact, B2.Accepts, B3.Accepts, B2.SameEvidence, LiveJob, ExpectedJob;
  }

  /** The Pod is the acceptance Job's: it and the Job have UIDs, and the Job is its sole controller. */
  predicate PodOfAcceptanceJob(run: RunIdentity, pod: LiveObject, jobUid: Option<string>) {
    pod.uid != "" && jobUid.Some? && jobUid.value != "" && SoleController(pod, Job, "it4931-acceptance-" + run.runId, jobUid)
  }

  /**
   The lookup of the acceptance Job succeeds exactly when the Job query was answered and, for a Job that was found,
   the Pod query found no Pod or one of this Job; it then gives their UIDs.
   */
  lemma LookupExactly(run: RunIdentity, e: Evidence)
    ensures LiveJob(run, e).Some? <==>
              || e.jobReply.JobNotFound?
              || (&& e.jobReply.JobFound? && e.podReply.Some?
                  && (e.podReply.value == [] || (|e.podReply.value| == 1 && PodOfAcceptanceJob(run, e.podReply.value[0], e.jobReply.uid))))
    ensures LiveJob(run, e).Some? && e.jobReply.JobNotFound? ==> LiveJob(run, e).value == JobIdentity(None, None)
    ensures LiveJob(run, e).Some? && e.jobReply.JobFound? ==>
              LiveJob(run, e).value
              == JobIdentity(e.jobReply.uid, if e.podReply.value == [] then None else Some(e.podReply.value[0].uid))
  {
    AcceptanceNamed(run);
    hide AcceptanceJob;
  }

  /** What the acceptance receipt, or else the failure evidence, says about the acceptance Job. */
  function EvidenceOfJob(e: Evidence): Option<JobIdentity> {
    match e.acceptance
    case Some(acceptance) => Some(JobIdentity(acceptance.jobUid, acceptance.podUid))
    case None => e.failureJob
  }

  /**
   Once a delete command is issued, the evidence names the acceptance Job and the Pod that the lookup found: none
   without a Job, and at most one Pod, which the Job controls.
   */
  lemma DeletionMatchesLookup(run: RunIdentity, lock: Lock, e: Evidence)
    requires GuardsPass(run, lock, e)
    ensures !e.jobReply.JobQueryFailed? && EvidenceOfJob(e).Some? && LiveJob(run, e) == EvidenceOfJob(e)
    ensures e.jobReply.JobNotFound? ==> EvidenceOfJob(e).value == JobIdentity(None, None)
    ensures e.jobReply.JobFound? ==>
              && EvidenceOfJob(e).value.jobUid == e.jobReply.uid
              && e.podReply.Some? && |e.podReply.value| <= 1
              && (e.podReply.value == [] ==> EvidenceOfJob(e).value.podUid == None)
              && (|e.podReply.value| == 1 ==>
                    var pod := e.podReply.value[0];
                    && EvidenceOfJob(e).value.podUid == Some(pod.uid) && pod.uid != ""
                    && e.jobReply.uid.Some? && e.jobReply.uid.value != ""
                    && SoleController(pod, Job, "it4931-acceptance-" + run.runId, e.jobReply.uid))
  {
    hide InventoryExact, ReceiptsMatchLive, RequestValid;
    AcceptanceNamed(run);
    hide AcceptanceJob;
  }
}
