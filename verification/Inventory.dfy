/**
 The inventory guard of the teardown: every object and volume of the dedicated profile must be
 receipted, or derived from something receipted (scripts/k8s/teardown.py).
 */
module Inventory {
  import opened Wrappers
  import opened Collections
  import opened Ownership
  import B2 = ServingReceipt
  import B3 = PipelineReceipt

  // ----- what the cluster reports -----

  datatype Target = Target(kind: Kind, apiVersion: Option<string>, namespace: string, name: string, uid: string)

  /** Addresses are parsed already; None is a value that is no IP address. */
  datatype Address = Address(ip: Option<int>, target: Option<Target>)

  datatype Subset = Subset(addresses: seq<Address>, notReady: seq<Address>)

  /** One entry of `ownerReferences` as reported: any field may be missing; `rest` is what else it says. */
  datatype LiveOwner = LiveOwner(
    kind: Option<Kind>, name: Option<string>, uid: Option<string>, controller: Option<bool>, rest: string)

  /** The four fields of an owner reference that identities are compared on. */
  datatype OwnerRef = OwnerRef(kind: Option<Kind>, name: Option<string>, uid: Option<string>, controller: bool)

  function RefOf(o: LiveOwner): OwnerRef {
    OwnerRef(o.kind, o.name, o.uid, o.controller == Some(true))
  }

  function LiveRefs(owners: seq<LiveOwner>): seq<OwnerRef> {
    seq(|owners|, i requires 0 <= i < |owners| => RefOf(owners[i]))
  }

  function RecordedRefs(owners: seq<Owner>): seq<OwnerRef> {
    seq(|owners|, i requires 0 <= i < |owners| =>
      OwnerRef(Some(owners[i].kind), Some(owners[i].name), Some(owners[i].uid), owners[i].controller))
  }

  datatype LiveObject = LiveObject(
    kind: Kind, name: string, uid: string, namespace: Option<string>, labels: Option<Labels>,
    owners: seq<LiveOwner>, regardingUid: Option<string>, selector: Labels, subsets: seq<Subset>,
    podIps: seq<Option<int>>)
  {
    function Key(): Key {
      (kind, name)
    }

    function LabelsOrNone(): Labels {
      labels.GetOr(map[])
    }

    function AsIdentity(): Identity {
      Identity(uid, LabelsOrNone(), LiveRefs(owners))
    }

    /** Two listings of one object, under API aliases, show the same metadata, whole owner references included. */
    predicate AliasOf(first: LiveObject) {
      uid == first.uid && LabelsOrNone() == first.LabelsOrNone() && owners == first.owners
    }
  }

  datatype NamespaceItem = NamespaceItem(name: string, uid: string, labels: Option<Labels>)

  /** One discovered API resource with the reply to its unfiltered list request. */
  datatype ResourceList = ResourceList(resource: string, items: Option<seq<LiveObject>>)

  datatype ClaimRef = ClaimRef(namespace: string, name: string, uid: string)

  datatype Volume = Volume(name: string, uid: string, claim: Option<ClaimRef>)

  datatype StorageClassItem = StorageClassItem(name: string, uid: string)

  /** Every reply the guard reads; None is a failed request or a malformed payload. */
  datatype Replies = Replies(
    namespaces: Option<seq<NamespaceItem>>,
    resources: Option<seq<ResourceList>>,
    volumes: Option<seq<Volume>>,
    storageClasses: Option<seq<StorageClassItem>>)

  // ----- what the receipts record -----

  /** What an object must show to be the recorded one. */
  datatype Identity = Identity(uid: string, labels: Labels, owners: seq<OwnerRef>)

  function IdentityOf(o: ObjectRecord): Identity {
    Identity(o.uid, o.labels, RecordedRefs(o.owners))
  }

  /** `setdefault`: the first record of a name stays. */
  function RecordMap(records: seq<ObjectRecord>): map<Key, Identity> {
    if records == [] then map[]
    else
      var earlier, last := RecordMap(records[..|records| - 1]), records[|records| - 1];
      if last.Key() in earlier then earlier else earlier[last.Key() := IdentityOf(last)]
  }

  /** A name that recurs, in one receipt or across the two, recurs with the same identity. */
  ghost predicate RecordsAgree(records: seq<ObjectRecord>) {
    records == []
    || (var earlier, last := records[..|records| - 1], records[|records| - 1];
        && RecordsAgree(earlier)
        && (last.Key() in RecordMap(earlier) ==> RecordMap(earlier)[last.Key()] == IdentityOf(last)))
  }

  lemma {:induction false} DisagreementPersists(records: seq<ObjectRecord>, n: nat)
    requires n <= |records| && !RecordsAgree(records[..n])
    ensures !RecordsAgree(records)
  {
    if n < |records| {
      var earlier := records[..|records| - 1];
      assert earlier[..n] == records[..n];
      DisagreementPersists(earlier, n);
    } else {
      assert records[..n] == records;
    }
  }

  /** The merged map holds every record, and nothing but the records. */
  lemma {:induction false} RecordMapHolds(records: seq<ObjectRecord>)
    requires RecordsAgree(records)
    ensures forall o :: o in records ==> o.Key() in RecordMap(records) && RecordMap(records)[o.Key()] == IdentityOf(o)
    ensures forall k :: k in RecordMap(records) ==> exists o :: o in records && o.Key() == k
  {
    if records != [] {
      var earlier, last := records[..|records| - 1], records[|records| - 1];
      RecordMapHolds(earlier);
      assert records == earlier + [last];
      assert last in records;
    }
  }

  /** Merges the records of the two receipts, listed one after the other. */
  method ReceiptObjectMap(records: seq<ObjectRecord>) returns (r: Option<map<Key, Identity>>)
    ensures r.Some? <==> RecordsAgree(records)
    ensures r.Some? ==> r.value == RecordMap(records)
  {
    var expected: map<Key, Identity> := map[];
    for i := 0 to |records|
      invariant expected == RecordMap(records[..i])
      invariant RecordsAgree(records[..i])
    {
      var item := records[i];
      PrefixStep(records, i);
      if item.Key() !in expected {
        expected := expected[item.Key() := IdentityOf(item)];
      } else if expected[item.Key()] != IdentityOf(item) {
        DisagreementPersists(records, i + 1);
        return None;
      }
    }
    assert records[..|records|] == records;
    r := Some(expected);
  }

  // ----- the unfiltered live inventory -----

  predicate SystemObject(k: Key) {
    k in {(ServiceAccount, "default"), (ConfigMap, "kube-root-ca.crt")}
  }

  predicate WellFormed(run: RunIdentity, o: LiveObject) {
    && (o.kind.OtherKind? ==> o.kind.name != "") && o.name != "" && o.uid != ""
    && (o.namespace.Some? ==> o.namespace.value == run.Namespace())
  }

  /** The first listing of every object that is not a system object. */
  function FirstLive(items: seq<LiveObject>): map<Key, LiveObject> {
    if items == [] then map[]
    else
      var earlier, last := FirstLive(items[..|items| - 1]), items[|items| - 1];
      if SystemObject(last.Key()) || last.Key() in earlier then earlier else earlier[last.Key() := last]
  }

  /** Every item is well formed, and API aliases of one object agree on its identity. */
  ghost predicate Scannable(run: RunIdentity, items: seq<LiveObject>) {
    items == []
    || (var earlier, last := items[..|items| - 1], items[|items| - 1];
        && Scannable(run, earlier)
        && WellFormed(run, last)
        && (!SystemObject(last.Key()) && last.Key() in FirstLive(earlier)
            ==> last.AliasOf(FirstLive(earlier)[last.Key()])))
  }

  lemma {:induction false} UnscannablePersists(run: RunIdentity, items: seq<LiveObject>, n: nat)
    requires n <= |items| && !Scannable(run, items[..n])
    ensures !Scannable(run, items)
  {
    if n < |items| {
      var earlier := items[..|items| - 1];
      assert earlier[..n] == items[..n];
      UnscannablePersists(run, earlier, n);
    } else {
      assert items[..n] == items;
    }
  }

  lemma {:induction false} FirstLiveHolds(run: RunIdentity, items: seq<LiveObject>)
    requires Scannable(run, items)
    ensures forall o :: o in items && !SystemObject(o.Key())
              ==> o.Key() in FirstLive(items) && o.AliasOf(FirstLive(items)[o.Key()])
    ensures forall k :: k in FirstLive(items) ==> FirstLive(items)[k] in items && FirstLive(items)[k].Key() == k && !SystemObject(k)
  {
    hide WellFormed;
    hide SystemObject;
    if items != [] {
      var earlier, last := items[..|items| - 1], items[|items| - 1];
      FirstLiveHolds(run, earlier);
      assert items == earlier + [last];
      assert last in items;
    }
  }

  function AllItems(lists: seq<ResourceList>): seq<LiveObject> {
    if lists == [] then []
    else AllItems(lists[..|lists| - 1]) + lists[|lists| - 1].items.GetOr([])
  }

  predicate AllListed(lists: seq<ResourceList>) {
    forall i :: 0 <= i < |lists| ==> lists[i].items.Some?
  }

  /** What one more item does to the scan. */
  lemma ScanStep(run: RunIdentity, earlier: seq<LiveObject>, items: seq<LiveObject>, i: nat)
    requires i < |items|
    ensures var seen, all := earlier + items[..i], earlier + items[..i + 1];
            && (Scannable(run, all) <==>
                  && Scannable(run, seen) && WellFormed(run, items[i])
                  && (!SystemObject(items[i].Key()) && items[i].Key() in FirstLive(seen)
                      ==> items[i].AliasOf(FirstLive(seen)[items[i].Key()])))
            && FirstLive(all) == (if SystemObject(items[i].Key()) || items[i].Key() in FirstLive(seen) then FirstLive(seen)
                                  else FirstLive(seen)[items[i].Key() := items[i]])
            && (earlier + items)[..|all|] == all
  {
    hide WellFormed, SystemObject;
    var seen, all := earlier + items[..i], earlier + items[..i + 1];
    assert all[..|all| - 1] == seen && all[|all| - 1] == items[i];
  }

  method ScanResource(run: RunIdentity, before: map<Key, LiveObject>, items: seq<LiveObject>, ghost earlier: seq<LiveObject>)
    returns (ok: bool, live: map<Key, LiveObject>)
    requires Scannable(run, earlier) && before == FirstLive(earlier)
    ensures ok <==> Scannable(run, earlier + items)
    ensures ok ==> live == FirstLive(earlier + items)
  {
    hide WellFormed, SystemObject, Scannable, FirstLive;
    live := before;
    assert earlier + items[..0] == earlier;
    for i := 0 to |items|
      invariant Scannable(run, earlier + items[..i])
      invariant live == FirstLive(earlier + items[..i])
    {
      var item := items[i];
      ScanStep(run, earlier, items, i);
      if !WellFormed(run, item)
         || (!SystemObject(item.Key()) && item.Key() in live && !item.AliasOf(live[item.Key()])) {
        UnscannablePersists(run, earlier + items, |earlier + items[..i + 1]|);
        return false, live;
      }
      if !SystemObject(item.Key()) && item.Key() !in live {
        live := live[item.Key() := item];
      }
    }
    assert items[..|items|] == items;
    ok := true;
  }

  method ScanNamespace(run: RunIdentity, lists: seq<ResourceList>) returns (r: Option<map<Key, LiveObject>>)
    ensures r.Some? <==> AllListed(lists) && Scannable(run, AllItems(lists))
    ensures r.Some? ==> r.value == FirstLive(AllItems(lists))
  {
    var live: map<Key, LiveObject> := map[];
    for i := 0 to |lists|
      invariant AllListed(lists[..i]) && Scannable(run, AllItems(lists[..i]))
      invariant live == FirstLive(AllItems(lists[..i]))
    {
      PrefixStep(lists, i);
      if lists[i].items.None? {
        return None;
      }
      var ok;
      ok, live := ScanResource(run, live, lists[i].items.value, AllItems(lists[..i]));
      if !ok {
        UnscannableListPersists(run, lists, i + 1);
        return None;
      }
    }
    assert lists[..|lists|] == lists;
    r := Some(live);
  }

  lemma {:induction false} UnscannableListPersists(run: RunIdentity, lists: seq<ResourceList>, n: nat)
    requires n <= |lists| && !Scannable(run, AllItems(lists[..n]))
    ensures !Scannable(run, AllItems(lists))
  {
    if n < |lists| {
      var earlier := lists[..|lists| - 1];
      assert earlier[..n] == lists[..n];
      UnscannableListPersists(run, earlier, n);
      var items := AllItems(lists);
      assert items[..|AllItems(earlier)|] == AllItems(earlier);
      UnscannablePersists(run, items, |AllItems(earlier)|);
    } else {
      assert lists[..n] == lists;
    }
  }

  // ----- endpoints -----

  /** The Service selects the Pods of its generated endpoints. */
  predicate SelectorUsable(run: RunIdentity, endpoints: LiveObject, service: LiveObject) {
    && endpoints.namespace == Some(run.Namespace())
    && service.namespace == Some(run.Namespace())
    && service.selector != map[] && "" !in service.selector
  }

  predicate TargetNamesPod(run: RunIdentity, t: Target) {
    && t.kind.Pod? && (t.apiVersion.None? || t.apiVersion.value == "v1")
    && t.namespace == run.Namespace() && t.name != "" && t.uid != ""
  }

  /** The targeted Pod is receipted and live, is what its receipt says, and the Service selects it. */
  predicate TargetApproved(run: RunIdentity, t: Target, selector: Labels, expected: map<Key, Identity>, live: map<Key, LiveObject>) {
    && TargetNamesPod(run, t)
    && (Pod, t.name) in expected && (Pod, t.name) in live
    && var pod := live[(Pod, t.name)];
       && pod.owners != []
       && t.uid == pod.uid
       && pod.namespace == Some(run.Namespace())
       && pod.AsIdentity() == expected[(Pod, t.name)]
       && Carries(pod.LabelsOrNone(), selector)
  }

  predicate AddressApproved(run: RunIdentity, a: Address, selector: Labels, expected: map<Key, Identity>, live: map<Key, LiveObject>) {
    && a.target.Some? && TargetApproved(run, a.target.value, selector, expected, live)
    && a.ip.Some? && a.ip in live[(Pod, a.target.value.name)].podIps
    && None !in live[(Pod, a.target.value.name)].podIps
  }

  function SubsetAddresses(s: Subset): seq<Address> {
    s.addresses + s.notReady
  }

  ghost predicate TargetsApproved(run: RunIdentity, endpoints: LiveObject, service: LiveObject, expected: map<Key, Identity>, live: map<Key, LiveObject>) {
    && SelectorUsable(run, endpoints, service)
    && (forall s, a :: s in endpoints.subsets && a in SubsetAddresses(s)
          ==> AddressApproved(run, a, service.selector, expected, live))
    && exists s :: s in endpoints.subsets && SubsetAddresses(s) != []
  }

  method CheckAddresses(run: RunIdentity, addresses: seq<Address>, selector: Labels, expected: map<Key, Identity>, live: map<Key, LiveObject>)
    returns (ok: bool)
    ensures ok <==> forall a :: a in addresses ==> AddressApproved(run, a, selector, expected, live)
  {
    hide AddressApproved;
    for i := 0 to |addresses|
      invariant forall j :: 0 <= j < i ==> AddressApproved(run, addresses[j], selector, expected, live)
    {
      if !AddressApproved(run, addresses[i], selector, expected, live) {
        assert addresses[i] in addresses;
        return false;
      }
    }
    ok := true;
  }

  method ValidateEndpointsTargets(run: RunIdentity, endpoints: LiveObject, service: LiveObject, expected: map<Key, Identity>, live: map<Key, LiveObject>)
    returns (ok: bool)
    ensures ok <==> TargetsApproved(run, endpoints, service, expected, live)
  {
    hide AddressApproved;
    hide SelectorUsable;
    if !SelectorUsable(run, endpoints, service) {
      return false;
    }
    var targetCount := 0;
    for i := 0 to |endpoints.subsets|
      invariant forall j, a :: 0 <= j < i && a in SubsetAddresses(endpoints.subsets[j]) ==>
                  AddressApproved(run, a, service.selector, expected, live)
      invariant targetCount >= 0
      invariant targetCount > 0 <==> exists j :: 0 <= j < i && SubsetAddresses(endpoints.subsets[j]) != []
    {
      var subset := endpoints.subsets[i];
      var approved := CheckAddresses(run, SubsetAddresses(subset), service.selector, expected, live);
      if !approved {
        assert subset in endpoints.subsets;
        return false;
      }
      targetCount := targetCount + |SubsetAddresses(subset)|;
    }
    if targetCount > 0 {
      var j :| 0 <= j < |endpoints.subsets| && SubsetAddresses(endpoints.subsets[j]) != [];
      assert endpoints.subsets[j] in endpoints.subsets;
    }
    ok := targetCount > 0;
  }

  // ----- derived objects -----

  predicate DerivedKind(kind: Kind) {
    kind.Event? || kind.ControllerRevision? || kind.Endpoints? || kind.EndpointSlice?
  }

  /** The UID of the expected StatefulSet of this name, if there is one. */
  function StatefulUid(expected: map<Key, Identity>, name: Option<string>): Option<string> {
    if name.Some? && (StatefulSet, name.value) in expected then Some(expected[(StatefulSet, name.value)].uid) else None
  }

  predicate RevisionAuthorised(run: RunIdentity, o: LiveObject, expected: map<Key, Identity>) {
    && |o.owners| == 1
    && o.owners[0].kind == Some(StatefulSet) && o.owners[0].controller == Some(true)
    && o.owners[0].uid == StatefulUid(expected, o.owners[0].name)
    && Carries(o.LabelsOrNone(), run.RunLabels())
  }

  function ServiceName(o: LiveObject): Option<string> {
    if o.kind.Endpoints? then Some(o.name)
    else if "kubernetes.io/service-name" in o.LabelsOrNone() then Some(o.LabelsOrNone()["kubernetes.io/service-name"])
    else None
  }

  /** Resolves to a receipted Service that is live with the recorded UID and labels, and to no other owner. */
  predicate ServiceResolves(o: LiveObject, expected: map<Key, Identity>, live: map<Key, LiveObject>) {
    && ServiceName(o).Some?
    && var service := (Service, ServiceName(o).value);
       && service in expected && service in live
       && live[service].uid == expected[service].uid
       && live[service].labels == Some(expected[service].labels)
       && (o.owners == [] ==> o.kind.Endpoints?)
       && (o.owners != [] ==> LiveRefs(o.owners) == [OwnerRef(Some(Service), Some(service.1), Some(expected[service].uid), true)])
  }

  ghost predicate DerivedAuthorised(run: RunIdentity, o: LiveObject, expected: map<Key, Identity>, authorisedUids: set<string>, live: map<Key, LiveObject>) {
    match o.kind
    case Event => o.regardingUid.Some? && o.regardingUid.value in authorisedUids
    case ControllerRevision => RevisionAuthorised(run, o, expected)
    case EndpointSlice => ServiceResolves(o, expected, live)
    case Endpoints =>
      && ServiceResolves(o, expected, live)
      && TargetsApproved(run, o, live[(Service, o.name)], expected, live)
    case _ => true
  }

  method CheckDerived(run: RunIdentity, o: LiveObject, expected: map<Key, Identity>, authorisedUids: set<string>, live: map<Key, LiveObject>)
    returns (ok: bool)
    ensures ok <==> DerivedAuthorised(run, o, expected, authorisedUids, live)
  {
    hide TargetsApproved;
    hide RevisionAuthorised;
    match o.kind
    case Event =>
      ok := o.regardingUid.Some? && o.regardingUid.value in authorisedUids;
    case ControllerRevision =>
      ok := RevisionAuthorised(run, o, expected);
    case EndpointSlice =>
      ok := ServiceResolves(o, expected, live);
    case Endpoints =>
      ok := ServiceResolves(o, expected, live);
      if ok {
        ok := ValidateEndpointsTargets(run, o, live[(Service, o.name)], expected, live);
      }
    case _ =>
      ok := true;
  }

  function DerivedKeys(live: map<Key, LiveObject>): set<Key> {
    set k | k in live && DerivedKind(k.0)
  }

  method CollectDerived(run: RunIdentity, expected: map<Key, Identity>, authorisedUids: set<string>, live: map<Key, LiveObject>)
    returns (ok: bool, derived: set<Key>)
    requires forall k :: k in live ==> live[k].Key() == k
    ensures ok <==> forall k :: k in live ==> DerivedAuthorised(run, live[k], expected, authorisedUids, live)
    ensures ok ==> derived == DerivedKeys(live)
  {
    hide DerivedAuthorised;
    derived := {};
    var pending := live.Keys;
    while pending != {}
      invariant pending <= live.Keys
      invariant forall k :: k in live.Keys - pending ==> DerivedAuthorised(run, live[k], expected, authorisedUids, live)
      invariant derived == set k | k in live.Keys - pending && DerivedKind(k.0)
    {
      var key :| key in pending;
      var authorised := CheckDerived(run, live[key], expected, authorisedUids, live);
      if !authorised {
        return false, derived;
      }
      if DerivedKind(key.0) {
        derived := derived + {key};
      }
      pending := pending - {key};
    }
    ok := true;
  }

  // ----- the acceptance Job and Pod -----

  function AcceptanceJob(run: RunIdentity): string {
    JobName("acceptance", run.runId)
  }

  function AcceptanceJobLabels(run: RunIdentity): Labels {
    run.RunLabels() + map[
      "app.kubernetes.io/name" := "pipeline-task",
      "app.kubernetes.io/part-of" := "instacart-k8s-demo",
      "it4931.instacart.edu/component" := "pipeline",
      "it4931.instacart.edu/step" := "acceptance"]
  }

  function AcceptancePodLabels(run: RunIdentity): Labels {
    run.RunLabels() + map[
      "app.kubernetes.io/name" := "pipeline-task",
      "it4931.instacart.edu/component" := "pipeline",
      "it4931.instacart.edu/role" := "pipeline",
      "it4931.instacart.edu/step" := "acceptance"]
  }

  function WithAcceptanceJob(run: RunIdentity, records: map<Key, Identity>, jobUid: Option<string>): map<Key, Identity> {
    if jobUid.None? then records
    else records[(Job, AcceptanceJob(run)) := Identity(jobUid.value, AcceptanceJobLabels(run), [])]
  }

  function PodsWithUid(live: map<Key, LiveObject>, uid: string): set<Key> {
    set k | k in live && k.0.Pod? && live[k].uid == uid
  }

  predicate AcceptancePodBound(run: RunIdentity, pod: LiveObject, jobUid: Option<string>) {
    && |pod.owners| == 1
    && RefOf(pod.owners[0]) == OwnerRef(Some(Job), Some(AcceptanceJob(run)), jobUid, true)
    && Carries(pod.LabelsOrNone(), AcceptancePodLabels(run))
    && HasPrefix(pod.name, AcceptanceJob(run) + "-")
  }

  function AcceptancePodIdentity(run: RunIdentity, jobUid: Option<string>, podUid: string): Identity {
    Identity(podUid, AcceptancePodLabels(run), [OwnerRef(Some(Job), Some(AcceptanceJob(run)), jobUid, true)])
  }

  ghost predicate AcceptancePodFound(run: RunIdentity, live: map<Key, LiveObject>, jobUid: Option<string>, podUid: Option<string>) {
    podUid.Some? ==>
      && |PodsWithUid(live, podUid.value)| == 1
      && forall k :: k in PodsWithUid(live, podUid.value) ==> AcceptancePodBound(run, live[k], jobUid)
  }

  ghost function WithAcceptancePod(run: RunIdentity, expected: map<Key, Identity>, live: map<Key, LiveObject>, jobUid: Option<string>, podUid: Option<string>): map<Key, Identity>
    requires AcceptancePodFound(run, live, jobUid, podUid)
  {
    if podUid.None? then expected
    else
      var k :| k in PodsWithUid(live, podUid.value);
      expected[k := AcceptancePodIdentity(run, jobUid, podUid.value)]
  }

  method AddAcceptancePod(run: RunIdentity, expected: map<Key, Identity>, live: map<Key, LiveObject>, jobUid: Option<string>, podUid: Option<string>)
    returns (r: Option<map<Key, Identity>>)
    ensures r.Some? <==> AcceptancePodFound(run, live, jobUid, podUid)
    ensures r.Some? ==> r.value == WithAcceptancePod(run, expected, live, jobUid, podUid)
  {
    if podUid.None? {
      return Some(expected);
    }
    var matches := PodsWithUid(live, podUid.value);
    if |matches| != 1 {
      return None;
    }
    var key :| key in matches;
    Singleton(matches, key);
    if !AcceptancePodBound(run, live[key], jobUid) {
      return None;
    }
    r := Some(expected[key := AcceptancePodIdentity(run, jobUid, podUid.value)]);
  }

  // ----- the final comparison -----

  ghost predicate LiveAsExpected(live: map<Key, LiveObject>, expected: map<Key, Identity>) {
    && live.Keys - DerivedKeys(live) == expected.Keys
    && forall k :: k in expected ==> live[k].AsIdentity() == expected[k]
  }

  method CompareLive(live: map<Key, LiveObject>, expected: map<Key, Identity>, derived: set<Key>) returns (ok: bool)
    requires derived == DerivedKeys(live)
    ensures ok <==> LiveAsExpected(live, expected)
  {
    if live.Keys - derived != expected.Keys {
      return false;
    }
    var pending := expected.Keys;
    while pending != {}
      invariant pending <= expected.Keys
      invariant forall k :: k in expected.Keys - pending ==> live[k].AsIdentity() == expected[k]
    {
      var key :| key in pending;
      assert key in live.Keys;
      if live[key].AsIdentity() != expected[key] {
        return false;
      }
      pending := pending - {key};
    }
    ok := true;
  }

  // ----- volumes and StorageClass -----

  /** The part of a B2 or B3 storage record that the guard compares. */
  datatype StorageRecord = StorageRecord(
    volumeName: string, volumeUid: string, claimName: string, claimUid: string,
    storageClass: string, storageClassUid: string)

  function StorageRecords(b2: B2.Receipt, b3: B3.Receipt): seq<StorageRecord> {
    var first := b2.storage;
    [StorageRecord(first.volumeName, first.volumeUid, first.claimName, first.claimUid, first.storageClass, first.storageClassUid)]
    + seq(|b3.storage|, i requires 0 <= i < |b3.storage| =>
        var st := b3.storage[i];
        StorageRecord(st.volumeName, st.volumeUid, st.claimName, st.claimUid, st.storageClass, st.storageClassUid))
  }

  function ExpectedVolumes(records: seq<StorageRecord>): map<string, StorageRecord> {
    if records == [] then map[]
    else
      var last := records[|records| - 1];
      ExpectedVolumes(records[..|records| - 1])[last.volumeName := last]
  }

  function VolumeUids(records: seq<StorageRecord>): set<string> {
    if records == [] then {} else VolumeUids(records[..|records| - 1]) + {records[|records| - 1].volumeUid}
  }

  /** No volume is recorded twice, by name or by UID. */
  ghost predicate VolumesDistinct(records: seq<StorageRecord>) {
    records == []
    || (var earlier, last := records[..|records| - 1], records[|records| - 1];
        && VolumesDistinct(earlier)
        && last.volumeName !in ExpectedVolumes(earlier)
        && last.volumeUid !in VolumeUids(earlier))
  }

  lemma {:induction false} RepeatedVolumePersists(records: seq<StorageRecord>, n: nat)
    requires n <= |records| && !VolumesDistinct(records[..n])
    ensures !VolumesDistinct(records)
  {
    if n < |records| {
      var earlier := records[..|records| - 1];
      assert earlier[..n] == records[..n];
      RepeatedVolumePersists(earlier, n);
    } else {
      assert records[..n] == records;
    }
  }

  lemma {:induction false} ExpectedVolumesHold(records: seq<StorageRecord>)
    requires VolumesDistinct(records)
    ensures forall r :: r in records ==> r.volumeName in ExpectedVolumes(records) && ExpectedVolumes(records)[r.volumeName] == r
    ensures forall n :: n in ExpectedVolumes(records) ==> ExpectedVolumes(records)[n] in records && ExpectedVolumes(records)[n].volumeName == n
    ensures |ExpectedVolumes(records)| == |records|
  {
    if records != [] {
      var earlier, last := records[..|records| - 1], records[|records| - 1];
      ExpectedVolumesHold(earlier);
      assert records == earlier + [last];
      assert last in records;
    }
  }

  lemma VolumeStep(records: seq<StorageRecord>, i: nat)
    requires i < |records|
    ensures VolumesDistinct(records[..i + 1]) <==>
              && VolumesDistinct(records[..i])
              && records[i].volumeName !in ExpectedVolumes(records[..i])
              && records[i].volumeUid !in VolumeUids(records[..i])
    ensures ExpectedVolumes(records[..i + 1]) == ExpectedVolumes(records[..i])[records[i].volumeName := records[i]]
    ensures VolumeUids(records[..i + 1]) == VolumeUids(records[..i]) + {records[i].volumeUid}
  {
    PrefixStep(records, i);
  }

  method CollectExpectedVolumes(records: seq<StorageRecord>) returns (r: Option<map<string, StorageRecord>>)
    ensures r.Some? <==> VolumesDistinct(records)
    ensures r.Some? ==> r.value == ExpectedVolumes(records)
  {
    assert VolumesDistinct(records[..0]) && ExpectedVolumes(records[..0]) == map[] && VolumeUids(records[..0]) == {};
    hide VolumesDistinct;
    hide ExpectedVolumes;
    hide VolumeUids;
    var expected: map<string, StorageRecord> := map[];
    var uids: set<string> := {};
    for i := 0 to |records|
      invariant VolumesDistinct(records[..i])
      invariant expected == ExpectedVolumes(records[..i]) && uids == VolumeUids(records[..i])
    {
      VolumeStep(records, i);
      if records[i].volumeName in expected || records[i].volumeUid in uids {
        RepeatedVolumePersists(records, i + 1);
        return None;
      }
      expected := expected[records[i].volumeName := records[i]];
      uids := uids + {records[i].volumeUid};
    }
    assert records[..|records|] == records;
    r := Some(expected);
  }

  function ObservedVolumes(volumes: seq<Volume>): map<string, Volume> {
    if volumes == [] then map[]
    else
      var last := volumes[|volumes| - 1];
      ObservedVolumes(volumes[..|volumes| - 1])[last.name := last]
  }

  ghost predicate VolumeNamesDistinct(volumes: seq<Volume>) {
    volumes == []
    || (&& VolumeNamesDistinct(volumes[..|volumes| - 1])
        && volumes[|volumes| - 1].name !in ObservedVolumes(volumes[..|volumes| - 1]))
  }

  lemma {:induction false} RepeatedNamePersists(volumes: seq<Volume>, n: nat)
    requires n <= |volumes| && !VolumeNamesDistinct(volumes[..n])
    ensures !VolumeNamesDistinct(volumes)
  {
    if n < |volumes| {
      var earlier := volumes[..|volumes| - 1];
      assert earlier[..n] == volumes[..n];
      RepeatedNamePersists(earlier, n);
    } else {
      assert volumes[..n] == volumes;
    }
  }

  lemma {:induction false} ObservedVolumesHold(volumes: seq<Volume>)
    requires VolumeNamesDistinct(volumes)
    ensures forall v :: v in volumes ==> v.name in ObservedVolumes(volumes) && ObservedVolumes(volumes)[v.name] == v
    ensures forall n :: n in ObservedVolumes(volumes) ==> ObservedVolumes(volumes)[n] in volumes && ObservedVolumes(volumes)[n].name == n
    ensures |ObservedVolumes(volumes)| == |volumes|
  {
    if volumes != [] {
      var earlier, last := volumes[..|volumes| - 1], volumes[|volumes| - 1];
      ObservedVolumesHold(earlier);
      assert volumes == earlier + [last];
      assert last in volumes;
    }
  }

  /** The live volume carries the recorded UID and is bound to the recorded claim of this run. */
  predicate Binds(run: RunIdentity, v: Volume, r: StorageRecord) {
    v == Volume(r.volumeName, r.volumeUid, Some(ClaimRef(run.Namespace(), r.claimName, r.claimUid)))
  }

  ghost predicate VolumesExact(run: RunIdentity, records: seq<StorageRecord>, volumes: seq<Volume>) {
    && VolumesDistinct(records)
    && VolumeNamesDistinct(volumes)
    && ObservedVolumes(volumes).Keys == ExpectedVolumes(records).Keys
    && forall n :: n in ExpectedVolumes(records) ==> Binds(run, ObservedVolumes(volumes)[n], ExpectedVolumes(records)[n])
  }

  lemma ObservedStep(volumes: seq<Volume>, i: nat)
    requires i < |volumes|
    ensures VolumeNamesDistinct(volumes[..i + 1]) <==>
              VolumeNamesDistinct(volumes[..i]) && volumes[i].name !in ObservedVolumes(volumes[..i])
    ensures ObservedVolumes(volumes[..i + 1]) == ObservedVolumes(volumes[..i])[volumes[i].name := volumes[i]]
  {
    PrefixStep(volumes, i);
  }

  method CollectObservedVolumes(volumes: seq<Volume>) returns (r: Option<map<string, Volume>>)
    ensures r.Some? <==> VolumeNamesDistinct(volumes)
    ensures r.Some? ==> r.value == ObservedVolumes(volumes)
  {
    assert VolumeNamesDistinct(volumes[..0]) && ObservedVolumes(volumes[..0]) == map[];
    hide VolumeNamesDistinct;
    hide ObservedVolumes;
    var observed: map<string, Volume> := map[];
    for i := 0 to |volumes|
      invariant VolumeNamesDistinct(volumes[..i])
      invariant observed == ObservedVolumes(volumes[..i])
    {
      ObservedStep(volumes, i);
      if volumes[i].name in observed {
        RepeatedNamePersists(volumes, i + 1);
        return None;
      }
      observed := observed[volumes[i].name := volumes[i]];
    }
    assert volumes[..|volumes|] == volumes;
    r := Some(observed);
  }

  method CheckVolumes(run: RunIdentity, records: seq<StorageRecord>, volumes: seq<Volume>) returns (ok: bool)
    ensures ok <==> VolumesExact(run, records, volumes)
  {
    var expected := CollectExpectedVolumes(records);
    if expected.None? {
      return false;
    }
    var observed := CollectObservedVolumes(volumes);
    if observed.None? || observed.value.Keys != expected.value.Keys {
      return false;
    }
    var pending := expected.value.Keys;
    while pending != {}
      invariant pending <= expected.value.Keys
      invariant forall n :: n in expected.value.Keys - pending ==> Binds(run, observed.value[n], expected.value[n])
    {
      var name :| name in pending;
      if !Binds(run, observed.value[name], expected.value[name]) {
        return false;
      }
      pending := pending - {name};
    }
    ok := true;
  }

  function ExpectedClasses(records: seq<StorageRecord>): map<string, string> {
    if records == [] then map[]
    else
      var last := records[|records| - 1];
      ExpectedClasses(records[..|records| - 1])[last.storageClass := last.storageClassUid]
  }

  function ObservedClasses(items: seq<StorageClassItem>): map<string, string> {
    if items == [] then map[]
    else ObservedClasses(items[..|items| - 1])[items[|items| - 1].name := items[|items| - 1].uid]
  }

  predicate ClassesExact(records: seq<StorageRecord>, items: seq<StorageClassItem>) {
    |ExpectedClasses(records)| == 1 && ObservedClasses(items) == ExpectedClasses(records)
  }

  method CheckClasses(records: seq<StorageRecord>, items: seq<StorageClassItem>) returns (ok: bool)
    ensures ok <==> ClassesExact(records, items)
  {
    var observed: map<string, string> := map[];
    for i := 0 to |items|
      invariant observed == ObservedClasses(items[..i])
    {
      PrefixStep(items, i);
      observed := observed[items[i].name := items[i].uid];
    }
    assert items[..|items|] == items;
    ok := |ExpectedClasses(records)| == 1 && observed == ExpectedClasses(records);
  }

  // ----- the run namespace -----

  function NamespaceNames(items: seq<NamespaceItem>): set<string> {
    set item | item in items :: item.name
  }

  predicate NamespaceOwned(run: RunIdentity, item: NamespaceItem, b2: B2.Receipt, b3: B3.Receipt) {
    && item.uid != "" && item.uid == b2.namespaceUid && item.uid == b3.namespaceUid
    && Carries(item.labels.GetOr(map[]), run.RunLabels())
  }

  function RunNamespaces(run: RunIdentity, items: seq<NamespaceItem>): seq<NamespaceItem> {
    if items == [] then []
    else RunNamespaces(run, items[..|items| - 1])
         + if items[|items| - 1].name == run.Namespace() then [items[|items| - 1]] else []
  }

  predicate NamespacesExact(run: RunIdentity, items: seq<NamespaceItem>, b2: B2.Receipt, b3: B3.Receipt) {
    && NamespaceNames(items) == PROTECTED_NAMESPACES + {run.Namespace()}
    && |RunNamespaces(run, items)| == 1
    && NamespaceOwned(run, RunNamespaces(run, items)[0], b2, b3)
  }

  // ----- the guard -----

  predicate ValidResourceName(name: string) {
    name != "" && forall i :: 0 <= i < |name| ==> !Blank(name[i]) && name[i] != '/'
  }

  predicate Discovered(lists: seq<ResourceList>) {
    lists != [] && forall i :: 0 <= i < |lists| ==> ValidResourceName(lists[i].resource)
  }

  function AuthorisedUids(expected: map<Key, Identity>, b2: B2.Receipt, b3: B3.Receipt): set<string> {
    (set k | k in expected :: expected[k].uid)
    + {b2.namespaceUid, b2.storage.localityNodeUid}
    + (set st | st in b3.storage :: st.nodeUid)
  }

  /** The receipted objects and the acceptance Job: what events and endpoints may refer to. */
  function Receipted(run: RunIdentity, b2: B2.Receipt, b3: B3.Receipt, jobUid: Option<string>): map<Key, Identity> {
    WithAcceptanceJob(run, RecordMap(b2.objects + b3.objects), jobUid)
  }

  /** The live objects account for every record, and every live object is accounted for. */
  ghost predicate ObjectsExact(run: RunIdentity, b2: B2.Receipt, b3: B3.Receipt, jobUid: Option<string>, podUid: Option<string>, live: map<Key, LiveObject>) {
    var receipted := Receipted(run, b2, b3, jobUid);
    && (forall k :: k in live ==> DerivedAuthorised(run, live[k], receipted, AuthorisedUids(receipted, b2, b3), live))
    && AcceptancePodFound(run, live, jobUid, podUid)
    && LiveAsExpected(live, WithAcceptancePod(run, receipted, live, jobUid, podUid))
  }

  ghost predicate NamespaceInventoryExact(run: RunIdentity, b2: B2.Receipt, b3: B3.Receipt, jobUid: Option<string>, podUid: Option<string>, lists: seq<ResourceList>) {
    && RecordsAgree(b2.objects + b3.objects)
    && Discovered(lists) && AllListed(lists)
    && Scannable(run, AllItems(lists))
    && ObjectsExact(run, b2, b3, jobUid, podUid, FirstLive(AllItems(lists)))
  }

  ghost predicate StorageExact(run: RunIdentity, records: seq<StorageRecord>, c: Replies) {
    && c.volumes.Some? && c.storageClasses.Some?
    && VolumesExact(run, records, c.volumes.value)
    && ClassesExact(records, c.storageClasses.value)
  }

  ghost predicate InventoryExact(run: RunIdentity, b2: B2.Receipt, b3: B3.Receipt, jobUid: Option<string>, podUid: Option<string>, c: Replies) {
    && c.namespaces.Some? && NamespacesExact(run, c.namespaces.value, b2, b3)
    && c.resources.Some? && NamespaceInventoryExact(run, b2, b3, jobUid, podUid, c.resources.value)
    && StorageExact(run, StorageRecords(b2, b3), c)
  }

  lemma InventoryParts(run: RunIdentity, b2: B2.Receipt, b3: B3.Receipt, jobUid: Option<string>, podUid: Option<string>, c: Replies)
    ensures InventoryExact(run, b2, b3, jobUid, podUid, c) <==>
            && c.namespaces.Some? && NamespacesExact(run, c.namespaces.value, b2, b3)
            && c.resources.Some? && NamespaceInventoryExact(run, b2, b3, jobUid, podUid, c.resources.value)
            && StorageExact(run, StorageRecords(b2, b3), c)
  {
    hide NamespacesExact, NamespaceInventoryExact, StorageExact, StorageRecords;
  }

  method CheckObjects(run: RunIdentity, b2: B2.Receipt, b3: B3.Receipt, jobUid: Option<string>, podUid: Option<string>,
                      receipted: map<Key, Identity>, live: map<Key, LiveObject>)
    returns (ok: bool)
    requires receipted == Receipted(run, b2, b3, jobUid)
    requires forall k :: k in live ==> live[k].Key() == k
    ensures ok <==> ObjectsExact(run, b2, b3, jobUid, podUid, live)
  {
    hide DerivedAuthorised;
    hide AcceptancePodFound;
    hide LiveAsExpected;
    hide AuthorisedUids;
    hide WithAcceptanceJob;
    var derived;
    ok, derived := CollectDerived(run, receipted, AuthorisedUids(receipted, b2, b3), live);
    if !ok {
      return;
    }
    var expected := AddAcceptancePod(run, receipted, live, jobUid, podUid);
    if expected.None? {
      return false;
    }
    ok := CompareLive(live, expected.value, derived);
  }

  method CheckStorage(run: RunIdentity, records: seq<StorageRecord>, c: Replies) returns (ok: bool)
    ensures ok <==> StorageExact(run, records, c)
  {
    hide VolumesExact;
    hide ClassesExact;
    ok := false;
    if c.volumes.Some? {
      ok := CheckVolumes(run, records, c.volumes.value);
      if ok {
        ok := false;
        if c.storageClasses.Some? {
          ok := CheckClasses(records, c.storageClasses.value);
        }
      }
    }
  }

  method CheckNamespace(run: RunIdentity, b2: B2.Receipt, b3: B3.Receipt, jobUid: Option<string>, podUid: Option<string>, lists: seq<ResourceList>)
    returns (ok: bool)
    ensures ok <==> NamespaceInventoryExact(run, b2, b3, jobUid, podUid, lists)
  {
    hide ObjectsExact;
    hide Discovered;
    hide WithAcceptanceJob;
    var recorded := ReceiptObjectMap(b2.objects + b3.objects);
    if recorded.None? || !Discovered(lists) {
      return false;
    }
    var live := ScanNamespace(run, lists);
    if live.None? {
      return false;
    }
    FirstLiveHolds(run, AllItems(lists));
    ok := CheckObjects(run, b2, b3, jobUid, podUid, WithAcceptanceJob(run, recorded.value, jobUid), live.value);
  }

  method ValidateCompleteProfileInventory(run: RunIdentity, b2: B2.Receipt, b3: B3.Receipt, jobUid: Option<string>, podUid: Option<string>, c: Replies)
    returns (v: Verdict)
    ensures v.Accepted? <==> InventoryExact(run, b2, b3, jobUid, podUid, c)
  {
    hide *;
    InventoryParts(run, b2, b3, jobUid, podUid, c);
    if c.namespaces.None? || !NamespacesExact(run, c.namespaces.value, b2, b3) {
      return Refused("unexpected, missing or unowned namespace");
    }
    if c.resources.None? {
      return Refused("namespaced API resource discovery failed");
    }
    var ok := CheckNamespace(run, b2, b3, jobUid, podUid, c.resources.value);
    if !ok {
      return Refused("inventory is incomplete, malformed or contains a foreign resource");
    }
    ok := CheckStorage(run, StorageRecords(b2, b3), c);
    v := if ok then Accepted else Refused("profile contains an unexpected or missing PersistentVolume or StorageClass");
  }

  // ----- the partition theorem -----

  ghost predicate MatchesRecord(o: LiveObject, r: ObjectRecord) {
    o.Key() == r.Key() && o.uid == r.uid && o.LabelsOrNone() == r.labels && LiveRefs(o.owners) == RecordedRefs(r.owners)
  }

  ghost predicate IsAcceptanceJob(run: RunIdentity, o: LiveObject, jobUid: Option<string>) {
    && jobUid.Some? && o.Key() == (Job, AcceptanceJob(run))
    && o.AsIdentity() == Identity(jobUid.value, AcceptanceJobLabels(run), [])
  }

  ghost predicate IsAcceptancePod(run: RunIdentity, o: LiveObject, jobUid: Option<string>, podUid: Option<string>) {
    && podUid.Some? && o.kind.Pod? && HasPrefix(o.name, AcceptanceJob(run) + "-")
    && o.AsIdentity() == AcceptancePodIdentity(run, jobUid, podUid.value)
  }

  /** The object is one that a receipt or the acceptance evidence records. */
  ghost predicate AccountedFor(run: RunIdentity, o: LiveObject, records: seq<ObjectRecord>, jobUid: Option<string>, podUid: Option<string>) {
    || (exists r :: r in records && MatchesRecord(o, r))
    || IsAcceptanceJob(run, o, jobUid)
    || IsAcceptancePod(run, o, jobUid, podUid)
  }

  /** The names that the acceptance evidence may claim for itself. */
  ghost predicate AcceptanceName(run: RunIdentity, k: Key) {
    || k == (Job, AcceptanceJob(run))
    || (k.0.Pod? && HasPrefix(k.1, AcceptanceJob(run) + "-"))
  }

  ghost function Records(b2: B2.Receipt, b3: B3.Receipt): seq<ObjectRecord> {
    b2.objects + b3.objects
  }

  /** What the merged, extended map says about a name, traced back to a record or to the evidence. */
  lemma ExpectedOrigin(run: RunIdentity, records: seq<ObjectRecord>, jobUid: Option<string>, podUid: Option<string>,
                       live: map<Key, LiveObject>, k: Key)
    requires RecordsAgree(records) && AcceptancePodFound(run, live, jobUid, podUid)
    requires forall n :: n in live ==> live[n].Key() == n
    ensures var expected := WithAcceptancePod(run, WithAcceptanceJob(run, RecordMap(records), jobUid), live, jobUid, podUid);
            k in expected && k in live && live[k].AsIdentity() == expected[k]
            ==> AccountedFor(run, live[k], records, jobUid, podUid)
  {
    hide AcceptancePodLabels;
    hide AcceptanceJobLabels;
    hide RecordMap;
    hide RecordsAgree;
    RecordMapHolds(records);
    var receipted := WithAcceptanceJob(run, RecordMap(records), jobUid);
    var expected := WithAcceptancePod(run, receipted, live, jobUid, podUid);
    if k in expected && k in live && live[k].AsIdentity() == expected[k] {
      if k in receipted && expected[k] == receipted[k] {
        if k in RecordMap(records) && receipted[k] == RecordMap(records)[k] {
          var r :| r in records && r.Key() == k;
          assert MatchesRecord(live[k], r);
        } else {
          assert IsAcceptanceJob(run, live[k], jobUid);
        }
      } else {
        assert k in PodsWithUid(live, podUid.value);
        assert IsAcceptancePod(run, live[k], jobUid, podUid);
      }
    }
  }

  lemma RecordExpected(run: RunIdentity, records: seq<ObjectRecord>, jobUid: Option<string>, podUid: Option<string>,
                       live: map<Key, LiveObject>, r: ObjectRecord)
    requires RecordsAgree(records) && AcceptancePodFound(run, live, jobUid, podUid)
    requires forall n :: n in live ==> live[n].Key() == n
    requires r in records && !AcceptanceName(run, r.Key())
    ensures var expected := WithAcceptancePod(run, WithAcceptanceJob(run, RecordMap(records), jobUid), live, jobUid, podUid);
            r.Key() in expected && expected[r.Key()] == IdentityOf(r)
  {
    hide AcceptancePodLabels;
    hide AcceptanceJobLabels;
    hide RecordMap;
    hide RecordsAgree;
    RecordMapHolds(records);
    if podUid.Some? {
      var receipted := WithAcceptanceJob(run, RecordMap(records), jobUid);
      var k :| k in PodsWithUid(live, podUid.value)
               && WithAcceptancePod(run, receipted, live, jobUid, podUid)
                  == receipted[k := AcceptancePodIdentity(run, jobUid, podUid.value)];
      assert AcceptancePodBound(run, live[k], jobUid);
      assert AcceptanceName(run, k);
    }
  }

  lemma EvidenceExpected(run: RunIdentity, receipted: map<Key, Identity>, jobUid: Option<string>, podUid: Option<string>, live: map<Key, LiveObject>)
    requires AcceptancePodFound(run, live, jobUid, podUid) && podUid.Some?
    requires forall n :: n in live ==> live[n].Key() == n
    requires LiveAsExpected(live, WithAcceptancePod(run, receipted, live, jobUid, podUid))
    ensures exists k :: k in live && IsAcceptancePod(run, live[k], jobUid, podUid)
  {
    hide AcceptancePodLabels;
    var k :| k in PodsWithUid(live, podUid.value)
             && WithAcceptancePod(run, receipted, live, jobUid, podUid)
                == receipted[k := AcceptancePodIdentity(run, jobUid, podUid.value)];
    assert AcceptancePodBound(run, live[k], jobUid);
    assert IsAcceptancePod(run, live[k], jobUid, podUid);
  }

  /** Accounted-for objects and derived objects are disjoint, and together they are everything live. */
  lemma LivePartition(run: RunIdentity, b2: B2.Receipt, b3: B3.Receipt, jobUid: Option<string>, podUid: Option<string>,
                      live: map<Key, LiveObject>, k: Key)
    requires RecordsAgree(Records(b2, b3)) && ObjectsExact(run, b2, b3, jobUid, podUid, live)
    requires forall n :: n in live ==> live[n].Key() == n
    requires forall r :: r in Records(b2, b3) ==> !AcceptanceName(run, r.Key())
    requires k in live
    ensures AccountedFor(run, live[k], Records(b2, b3), jobUid, podUid) <==> !DerivedKind(k.0)
  {
    hide DerivedAuthorised;
    hide RecordsAgree;
    hide RecordMap;
    hide AuthorisedUids;
    hide AcceptancePodFound;
    hide WithAcceptanceJob;
    hide WithAcceptancePod;
    hide AcceptancePodIdentity;
    hide AcceptanceJobLabels;
    hide HasPrefix;
    var records := Records(b2, b3);
    ExpectedOrigin(run, records, jobUid, podUid, live, k);
    forall r | r in records && MatchesRecord(live[k], r) ensures !DerivedKind(k.0) {
      RecordExpected(run, records, jobUid, podUid, live, r);
    }
  }

  /** Every listed item that is not one of the namespace's system objects, aliases included. */
  ghost predicate Listed(lists: seq<ResourceList>, o: LiveObject) {
    o in AllItems(lists) && !SystemObject(o.Key())
  }

  lemma ListedItem(run: RunIdentity, lists: seq<ResourceList>, o: LiveObject) returns (first: LiveObject)
    requires Scannable(run, AllItems(lists)) && Listed(lists, o)
    ensures o.Key() in FirstLive(AllItems(lists)) && first == FirstLive(AllItems(lists))[o.Key()]
    ensures o.AliasOf(first) && first.AsIdentity() == o.AsIdentity() && first.Key() == o.Key()
  {
    FirstLiveHolds(run, AllItems(lists));
    first := FirstLive(AllItems(lists))[o.Key()];
  }

  lemma SameIdentitySameAccount(run: RunIdentity, a: LiveObject, b: LiveObject, records: seq<ObjectRecord>, jobUid: Option<string>, podUid: Option<string>)
    requires a.Key() == b.Key() && a.AsIdentity() == b.AsIdentity()
    ensures AccountedFor(run, a, records, jobUid, podUid) ==> AccountedFor(run, b, records, jobUid, podUid)
  {
    hide HasPrefix;
    hide AcceptanceJobLabels;
    hide AcceptancePodIdentity;
    if r :| r in records && MatchesRecord(a, r) {
      assert MatchesRecord(b, r);
    }
  }

  /**
   When the guard passes, the listed objects split exactly into those a receipt or the acceptance
   evidence records, and those of the four derived kinds. Each of the latter passed its check, and is
   bound to something expected unless it is a revision whose owner reference lacks a UID.
   */
  lemma InventoryPartition(run: RunIdentity, b2: B2.Receipt, b3: B3.Receipt, jobUid: Option<string>, podUid: Option<string>, c: Replies, o: LiveObject)
    requires InventoryExact(run, b2, b3, jobUid, podUid, c) && Listed(c.resources.value, o)
    requires forall r :: r in Records(b2, b3) ==> !AcceptanceName(run, r.Key())
    ensures AccountedFor(run, o, Records(b2, b3), jobUid, podUid) <==> !DerivedKind(o.kind)
    ensures var live := FirstLive(AllItems(c.resources.value));
            var receipted := Receipted(run, b2, b3, jobUid);
            && o.Key() in live && DerivedAuthorised(run, live[o.Key()], receipted, AuthorisedUids(receipted, b2, b3), live)
            && (DerivedOwned(run, live[o.Key()], receipted, AuthorisedUids(receipted, b2, b3), live)
                <==> (o.kind.ControllerRevision? ==> OwnersIdentified(o)))
  {
    hide OwnersIdentified;
    hide DerivedOwned;
    hide AccountedFor;
    hide DerivedAuthorised;
    hide Receipted;
    hide AuthorisedUids;
    hide LiveAsExpected;
    hide AcceptancePodFound;
    hide RecordsAgree;
    hide AllItems;
    hide NamespacesExact;
    hide StorageExact;
    hide Discovered;
    hide SystemObject;
    hide AcceptanceName;
    FirstLiveHolds(run, AllItems(c.resources.value));
    var live := FirstLive(AllItems(c.resources.value));
    var first := ListedItem(run, c.resources.value, o);
    LivePartition(run, b2, b3, jobUid, podUid, live, o.Key());
    SameIdentitySameAccount(run, first, o, Records(b2, b3), jobUid, podUid);
    SameIdentitySameAccount(run, o, first, Records(b2, b3), jobUid, podUid);
    var receipted := Receipted(run, b2, b3, jobUid);
    AuthorisedIsOwnedExactly(run, first, receipted, AuthorisedUids(receipted, b2, b3), live);
    SameOwnersIdentified(o, first);
  }

  lemma SameOwnersIdentified(a: LiveObject, b: LiveObject)
    requires a.owners == b.owners
    ensures OwnersIdentified(a) <==> OwnersIdentified(b)
  {
  }

  // ----- what a derived object is bound to -----

  /** The revision's owner is an expected StatefulSet, with its very UID. */
  predicate RevisionOwned(o: LiveObject, expected: map<Key, Identity>) {
    && |o.owners| == 1 && o.owners[0].kind == Some(StatefulSet)
    && o.owners[0].uid.Some? && o.owners[0].uid == StatefulUid(expected, o.owners[0].name)
  }

  /** The owner references of the revision carry a UID. */
  predicate OwnersIdentified(o: LiveObject) {
    forall i :: 0 <= i < |o.owners| ==> o.owners[i].uid.Some?
  }

  /** Derived objects are authorised, and revisions belong to expected StatefulSets. */
  ghost predicate DerivedOwned(run: RunIdentity, o: LiveObject, expected: map<Key, Identity>, authorisedUids: set<string>, live: map<Key, LiveObject>) {
    DerivedAuthorised(run, o, expected, authorisedUids, live) && (o.kind.ControllerRevision? ==> RevisionOwned(o, expected))
  }

  /**
   An authorised object is bound to something expected, except for a revision whose owner reference has
   no UID: it passes exactly when it names no expected StatefulSet.
   */
  lemma AuthorisedIsOwnedExactly(run: RunIdentity, o: LiveObject, expected: map<Key, Identity>, authorisedUids: set<string>, live: map<Key, LiveObject>)
    requires DerivedAuthorised(run, o, expected, authorisedUids, live)
    ensures DerivedOwned(run, o, expected, authorisedUids, live) <==> (o.kind.ControllerRevision? ==> OwnersIdentified(o))
    ensures o.kind.ControllerRevision? ==> (OwnersIdentified(o) <==> StatefulUid(expected, o.owners[0].name).Some?)
  {
  }

  /** The guard's verdict means that every derived object is bound exactly when no revision lacks its owner's UID. */
  lemma DerivedOwnedExactly(run: RunIdentity, b2: B2.Receipt, b3: B3.Receipt, jobUid: Option<string>, podUid: Option<string>, live: map<Key, LiveObject>)
    requires ObjectsExact(run, b2, b3, jobUid, podUid, live)
    ensures var receipted := Receipted(run, b2, b3, jobUid);
            (forall k :: k in live ==> DerivedOwned(run, live[k], receipted, AuthorisedUids(receipted, b2, b3), live))
            <==> (forall k :: k in live && live[k].kind.ControllerRevision? ==> OwnersIdentified(live[k]))
  {
    hide DerivedAuthorised, DerivedOwned, OwnersIdentified, Receipted, AuthorisedUids, AcceptancePodFound, LiveAsExpected;
    var receipted := Receipted(run, b2, b3, jobUid);
    forall k | k in live
      ensures DerivedOwned(run, live[k], receipted, AuthorisedUids(receipted, b2, b3), live)
              <==> (live[k].kind.ControllerRevision? ==> OwnersIdentified(live[k]))
    {
      AuthorisedIsOwnedExactly(run, live[k], receipted, AuthorisedUids(receipted, b2, b3), live);
    }
  }

  /** The UIDs of what the receipts record, the acceptance Job, the namespace and the nodes of the volumes. */
  ghost function RecordedUids(b2: B2.Receipt, b3: B3.Receipt, jobUid: Option<string>): set<string> {
    (set r | r in Records(b2, b3) :: r.uid)
    + (if jobUid.Some? then {jobUid.value} else {})
    + {b2.namespaceUid, b2.storage.localityNodeUid}
    + (set st | st in b3.storage :: st.nodeUid)
  }

  /** What an Event may be about is what the receipts and the acceptance Job record: no acceptance Pod. */
  lemma AuthorisedUidsAreRecorded(run: RunIdentity, b2: B2.Receipt, b3: B3.Receipt, jobUid: Option<string>)
    requires RecordsAgree(Records(b2, b3)) && forall r :: r in Records(b2, b3) ==> !AcceptanceName(run, r.Key())
    ensures AuthorisedUids(Receipted(run, b2, b3, jobUid), b2, b3) == RecordedUids(b2, b3, jobUid)
  {
    hide RecordsAgree, RecordMap, AcceptanceJob, AcceptanceJobLabels;
    var records, expected := Records(b2, b3), Receipted(run, b2, b3, jobUid);
    RecordMapHolds(records);
    forall k | k in expected ensures expected[k].uid in RecordedUids(b2, b3, jobUid) {
      if k in RecordMap(records) && expected[k] == RecordMap(records)[k] {
        var r :| r in records && r.Key() == k;
        assert r.uid in (set q | q in records :: q.uid);
      }
    }
    forall r | r in records ensures r.uid in (set k | k in expected :: expected[k].uid) {
      assert r.Key() in expected && expected[r.Key()] == IdentityOf(r);
    }
    if jobUid.Some? {
      assert (Job, AcceptanceJob(run)) in expected && expected[(Job, AcceptanceJob(run))].uid == jobUid.value;
    }
  }

  /** When the guard passes, the acceptance Job and Pod that the evidence names are live with their identities. */
  lemma EveryEvidenceLive(run: RunIdentity, b2: B2.Receipt, b3: B3.Receipt, jobUid: Option<string>, podUid: Option<string>, c: Replies)
    requires InventoryExact(run, b2, b3, jobUid, podUid, c)
    ensures jobUid.Some? ==> exists o :: Listed(c.resources.value, o) && IsAcceptanceJob(run, o, jobUid)
    ensures podUid.Some? ==> exists o :: Listed(c.resources.value, o) && IsAcceptancePod(run, o, jobUid, podUid)
  {
    hide DerivedAuthorised, AuthorisedUids, AcceptancePodFound, RecordsAgree, AllItems, NamespacesExact, StorageExact, Discovered,
         SystemObject, RecordMap, AcceptanceJob, AcceptanceJobLabels, AcceptancePodIdentity, HasPrefix, LiveAsExpected, WithAcceptancePod, Receipted;
    FirstLiveHolds(run, AllItems(c.resources.value));
    var live, receipted := FirstLive(AllItems(c.resources.value)), Receipted(run, b2, b3, jobUid);
    if podUid.Some? {
      EvidenceExpected(run, receipted, jobUid, podUid, live);
      var k :| k in live && IsAcceptancePod(run, live[k], jobUid, podUid);
      assert Listed(c.resources.value, live[k]);
    }
    if jobUid.Some? {
      JobExpected(run, b2, b3, jobUid, podUid, live);
      var k := (Job, AcceptanceJob(run));
      assert Listed(c.resources.value, live[k]);
    }
  }

  lemma JobExpected(run: RunIdentity, b2: B2.Receipt, b3: B3.Receipt, jobUid: Option<string>, podUid: Option<string>, live: map<Key, LiveObject>)
    requires AcceptancePodFound(run, live, jobUid, podUid) && jobUid.Some?
    requires forall n :: n in live ==> live[n].Key() == n
    requires LiveAsExpected(live, WithAcceptancePod(run, Receipted(run, b2, b3, jobUid), live, jobUid, podUid))
    ensures var k := (Job, AcceptanceJob(run)); k in live && IsAcceptanceJob(run, live[k], jobUid)
  {
    hide RecordMap, AcceptanceJob, AcceptanceJobLabels, AcceptancePodIdentity, AcceptancePodBound;
    var k := (Job, AcceptanceJob(run));
    var receipted := Receipted(run, b2, b3, jobUid);
    assert k in receipted && receipted[k] == Identity(jobUid.value, AcceptanceJobLabels(run), []);
    assert WithAcceptancePod(run, receipted, live, jobUid, podUid)[k] == receipted[k];
  }

  /** When the guard passes, every record of the two receipts is live, unchanged. */
  lemma EveryRecordLive(run: RunIdentity, b2: B2.Receipt, b3: B3.Receipt, jobUid: Option<string>, podUid: Option<string>, c: Replies, r: ObjectRecord)
    requires InventoryExact(run, b2, b3, jobUid, podUid, c)
    requires r in Records(b2, b3) && !AcceptanceName(run, r.Key())
    ensures exists o :: Listed(c.resources.value, o) && MatchesRecord(o, r)
  {
    hide DerivedAuthorised;
    hide AuthorisedUids;
    hide AcceptancePodFound;
    hide RecordsAgree;
    hide AllItems;
    hide NamespacesExact;
    hide StorageExact;
    hide Discovered;
    hide SystemObject;
    hide AcceptanceName;
    hide RecordMap;
    hide WithAcceptanceJob;
    hide WithAcceptancePod;
    FirstLiveHolds(run, AllItems(c.resources.value));
    var live := FirstLive(AllItems(c.resources.value));
    RecordExpected(run, Records(b2, b3), jobUid, podUid, live, r);
    var o := live[r.Key()];
    assert o.AsIdentity() == IdentityOf(r);
    assert Listed(c.resources.value, o) && MatchesRecord(o, r);
  }

  /** The volumes of the profile and the storage records are in one-to-one correspondence. */
  lemma VolumesBijectWithRecords(run: RunIdentity, records: seq<StorageRecord>, volumes: seq<Volume>)
    requires VolumesExact(run, records, volumes)
    ensures |volumes| == |records|
    ensures forall r :: r in records ==> exists v :: v in volumes && Binds(run, v, r) && forall w :: w in volumes && Binds(run, w, r) ==> w == v
    ensures forall v :: v in volumes ==> exists r :: r in records && Binds(run, v, r) && forall q :: q in records && Binds(run, v, q) ==> q == r
  {
    var expected, observed := ExpectedVolumes(records), ObservedVolumes(volumes);
    ExpectedVolumesHold(records);
    ObservedVolumesHold(volumes);
    assert |expected.Keys| == |observed.Keys|;
    forall r | r in records
      ensures exists v :: v in volumes && Binds(run, v, r) && forall w :: w in volumes && Binds(run, w, r) ==> w == v
    {
      assert r.volumeName in expected && observed[r.volumeName] in volumes;
    }
    forall v | v in volumes
      ensures exists r :: r in records && Binds(run, v, r) && forall q :: q in records && Binds(run, v, q) ==> q == r
    {
      assert v.name in expected && expected[v.name] in records;
    }
  }

  lemma {:induction false} ExpectedClassesHold(records: seq<StorageRecord>)
    ensures forall r :: r in records ==> r.storageClass in ExpectedClasses(records)
  {
    if records != [] {
      var earlier, last := records[..|records| - 1], records[|records| - 1];
      ExpectedClassesHold(earlier);
      assert records == earlier + [last];
    }
  }

  lemma {:induction false} ObservedClassesHold(items: seq<StorageClassItem>)
    ensures forall s :: s in items ==> s.name in ObservedClasses(items)
  {
    if items != [] {
      var earlier, last := items[..|items| - 1], items[|items| - 1];
      ObservedClassesHold(earlier);
      assert items == earlier + [last];
    }
  }

  /** One StorageClass name serves every record and is the only one the profile has. */
  lemma OneStorageClass(records: seq<StorageRecord>, items: seq<StorageClassItem>) returns (name: string)
    requires ClassesExact(records, items)
    ensures forall r :: r in records ==> r.storageClass == name
    ensures forall s :: s in items ==> s.name == name
  {
    ExpectedClassesHold(records);
    ObservedClassesHold(items);
    var keys := ExpectedClasses(records).Keys;
    assert |keys| == 1;
    name := Inhabitant(keys);
    Singleton(keys, name);
    assert ObservedClasses(items).Keys == keys;
  }

  // ----- accepted receipts never use an acceptance name -----

  lemma EighthCharacter(run: RunIdentity, s: string)
    requires HasPrefix(s, AcceptanceJob(run))
    ensures |s| > 7 && s[7] == 'a'
  {
    assert AcceptanceJob(run)[7] == 'a';
    assert s[7] == AcceptanceJob(run)[7];
  }

  lemma StepInitial(step: string, runId: string)
    requires step in B3.STEPS
    ensures JobName(step, runId)[7] != 'a'
  {
    assert JobName(step, runId)[7] == step[0];
  }

  lemma PipelineJobName(run: RunIdentity, r: B3.Receipt, o: ObjectRecord)
    requires B3.DirectComplete(run, r) && o in r.objects && o.kind.Job?
    ensures o.name in B3.JobNames(run)
  {
    hide B3.DIRECT_OBJECTS;
    hide B3.JobNames;
    ByKeyHolds(r.objects);
    assert o.Key() in B3.NonPods(ByKey(r.objects).Keys);
    NoDirectJobs(o.Key());
  }

  lemma NoDirectJobs(k: Key)
    requires k.0.Job?
    ensures k !in B3.DIRECT_OBJECTS
  {
    hide B3.CONFIG_NAMES;
    hide B3.ACCOUNT_NAMES;
    hide B3.SERVICE_NAMES;
    hide B3.STATEFUL_NAMES;
    hide B3.POLICY_NAMES;
    hide B3.CLAIMS;
  }

  lemma JobNameInitial(run: RunIdentity, name: string)
    requires name in B3.JobNames(run)
    ensures |name| > 7 && name[7] != 'a'
  {
    var step :| step in B3.STEPS && name == JobName(step, run.runId);
    StepInitial(step, run.runId);
  }

  lemma PodNameInitial(run: RunIdentity, o: ObjectRecord)
    requires o.kind.Pod? && |o.owners| == 1 && B3.ChildName(run, o)
    ensures |o.name| <= 7 || o.name[7] != 'a'
  {
    hide B3.JobNames;
    var owner := o.owners[0];
    if owner.kind.Job? {
      JobNameInitial(run, owner.name);
      assert o.name[7] == owner.name[7];
    } else {
      assert "hdfs-namenode-0"[7] == 'm' && "hdfs-datanode-0"[7] == 't' && |"kafka-0"| == 7;
    }
  }

  lemma PipelineNamesFree(run: RunIdentity, r: B3.Receipt, lock: B3.Lock, o: ObjectRecord)
    requires B3.Accepts(run, r, lock) && o in r.objects
    ensures !AcceptanceName(run, o.Key())
  {
    hide B3.HeaderValid;
    hide B3.InventoryDistinct;
    hide B3.DirectComplete;
    hide B3.StorageValid;
    hide B3.RoleCovered;
    hide B3.OnePodEach;
    hide B3.JobNames;
    hide B3.ChildName;
    hide B3.OwnerResolves;
    hide Carries;
    hide LabelIs;
    if o.kind.Job? {
      PipelineJobName(run, r, o);
      JobNameInitial(run, o.name);
    } else if o.kind.Pod? {
      B3.CheckedPod(run, o, ByKey(r.objects));
      PodNameInitial(run, o);
    }
    if AcceptanceName(run, o.Key()) {
      EighthCharacter(run, o.name);
    }
  }

  lemma ServingDirectKinds(k: Key)
    requires k in B2.DIRECT_INVENTORY
    ensures !k.0.Job? && !k.0.Pod?
  {
  }

  lemma ServingNamesFree(run: RunIdentity, r: B2.Receipt, exp: B2.Expectation, o: ObjectRecord)
    requires B2.Accepts(run, r, exp) && o in r.objects
    ensures !AcceptanceName(run, o.Key())
  {
    hide B2.TargetsRun;
    hide B2.ObjectsAdmissible;
    hide B2.StorageContract;
    hide B2.ImagesAdmissible;
    hide B2.ClusterImagesLocked;
    hide B2.NameMatches;
    hide B2.ChildBound;
    hide B2.CHILDREN;
    hide B2.DIRECT_INVENTORY;
    hide AcceptanceJob;
    ByKeyHolds(r.objects);
    if o.kind.Pod? {
      var i :| 0 <= i < |B2.CHILDREN| && B2.Fits(o, B2.CHILDREN[i]);
      ServingPodInitial(o.name, i);
      if AcceptanceName(run, o.Key()) {
        EighthCharacter(run, o.name);
      }
    } else if o.kind.Job? {
      assert o.Key() in B2.DirectKeys(ByKey(r.objects).Keys);
      ServingDirectKinds(o.Key());
    }
  }

  lemma ServingPodInitial(name: string, i: nat)
    requires i < |B2.CHILDREN| && B2.NameMatches(name, B2.CHILDREN[i].name)
    ensures |name| > 7 && name[7] == 'd'
  {
    assert forall j :: 0 <= j < |B2.CHILDREN| ==> |B2.CHILDREN[j].name| > 7 && B2.CHILDREN[j].name[7] == 'd';
  }
}
