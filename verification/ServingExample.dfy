/**
 The serving checks can be met: for every run and every usable expectation there is a receipt they accept,
 and no other expectation has one. The receipt lists the declared objects first and the five controller
 children after them; each UID is a run of one letter whose length is the object's place in the list, so
 that all of them differ from each other and from those of the cluster, the volume and the node.
 */
module ServingExample {
  import opened Wrappers
  import opened Collections
  import opened Ownership
  import opened ServingReceipt

  /** Pairwise different UIDs. */
  function Uid(i: nat): string {
    seq(i + 1, _ => 'x')
  }

  // ----- the objects -----

  const EXTRA_LABELS: Labels := map["app.kubernetes.io/name" := "module4d-mongo", "app.kubernetes.io/component" := "database"]

  function ExampleLabels(run: RunIdentity): Labels {
    EXTRA_LABELS + run.RunLabels()
  }

  function Record(run: RunIdentity, key: Key, i: nat, owners: seq<Owner>): ObjectRecord {
    ObjectRecord(key.0, key.1, run.Namespace(), Uid(i), ExampleLabels(run), owners)
  }

  const CHILD_NAMES: seq<Key> := [
    (Pod, "module4d-mongo-0"), (ReplicaSet, "module4d-api-a"), (Pod, "module4d-api-a-b"),
    (ReplicaSet, "module4d-ui-a"), (Pod, "module4d-ui-a-b")]

  const PARENTS: seq<Key> := [
    (StatefulSet, "module4d-mongo"), (Deployment, "module4d-api"), (ReplicaSet, "module4d-api-a"),
    (Deployment, "module4d-ui"), (ReplicaSet, "module4d-ui-a")]

  ghost function Keys(): seq<Key> {
    Listing(DIRECT_INVENTORY) + CHILD_NAMES
  }

  ghost function OwnersAt(i: nat): seq<Owner>
    requires i < |Keys()|
  {
    var n := |Listing(DIRECT_INVENTORY)|;
    if i < n then []
    else [Owner(PARENTS[i - n].0, PARENTS[i - n].1, Uid(IndexOf(Keys(), PARENTS[i - n])), true)]
  }

  ghost function Objects(run: RunIdentity): seq<ObjectRecord> {
    seq(|Keys()|, i requires 0 <= i < |Keys()| => Record(run, Keys()[i], i, OwnersAt(i)))
  }

  lemma LabelsCarry(run: RunIdentity)
    ensures Carries(ExampleLabels(run), run.RunLabels())
    ensures LabelIs(ExampleLabels(run), "app.kubernetes.io/name", "module4d-mongo")
    ensures LabelIs(ExampleLabels(run), "app.kubernetes.io/component", "database")
  {
    var a, b, c := "it4931.instacart.edu/owner", "it4931.instacart.edu/run-id", "app.kubernetes.io/managed-by";
    var d, e := "app.kubernetes.io/name", "app.kubernetes.io/component";
    assert a[0] == 'i' && b[0] == 'i' && d[0] == 'a' && e[0] == 'a';
    assert c[18] == 'm' && d[18] == 'n' && e[18] == 'c';
  }

  lemma ChildNamesDiffer()
    ensures Distinct(CHILD_NAMES)
    ensures forall i :: 0 <= i < |CHILD_NAMES| ==> Dynamic(CHILD_NAMES[i].0) && NotBlank(CHILD_NAMES[i].1)
  {
    var m, ra, pa, ru, pu := "module4d-mongo-0", "module4d-api-a", "module4d-api-a-b", "module4d-ui-a", "module4d-ui-a-b";
    assert m[9] == 'm' && ra[9] == 'a' && pa[9] == 'a' && ru[9] == 'u' && pu[9] == 'u';
    assert !Blank(m[0]) && !Blank(ra[0]) && !Blank(pa[0]) && !Blank(ru[0]) && !Blank(pu[0]);
  }

  ghost predicate Plain(k: Key) {
    !Dynamic(k.0) && !k.0.OtherKind? && NotBlank(k.1)
  }

  lemma StartsVisibly(k: Key)
    requires !Dynamic(k.0) && !k.0.OtherKind? && k.1 != "" && !Blank(k.1[0])
    ensures Plain(k)
  {
  }

  lemma WorkloadsPlain()
    ensures forall k :: k in WORKLOADS ==> Plain(k)
  {
    hide Plain;
    forall k | k in WORKLOADS ensures Plain(k) { StartsVisibly(k); }
  }

  lemma SettingsPlain()
    ensures forall k :: k in SETTINGS ==> Plain(k)
  {
    hide Plain;
    forall k | k in SETTINGS ensures Plain(k) { StartsVisibly(k); }
  }

  lemma PoliciesPlain()
    ensures forall k :: k in POLICIES ==> Plain(k)
  {
    hide Plain;
    forall k | k in POLICIES ensures Plain(k) { StartsVisibly(k); }
  }

  lemma SecretsPlain()
    ensures forall k :: k in SECRETS ==> Plain(k)
  {
    hide Plain;
    forall k | k in SECRETS ensures Plain(k) { StartsVisibly(k); }
  }

  lemma DirectNamesFine()
    ensures forall k :: k in DIRECT_INVENTORY ==> !Dynamic(k.0) && !k.0.OtherKind? && NotBlank(k.1)
  {
    hide WORKLOADS, SETTINGS, POLICIES, SECRETS;
    WorkloadsPlain();
    SettingsPlain();
    PoliciesPlain();
    SecretsPlain();
    forall k | k in DIRECT_INVENTORY ensures Plain(k) {}
  }

  lemma KeysDistinct()
    ensures Distinct(Keys()) && |Keys()| == |Listing(DIRECT_INVENTORY)| + 5
    ensures forall k :: k in Keys() <==> k in DIRECT_INVENTORY || k in CHILD_NAMES
  {
    hide CHILD_NAMES, DIRECT_INVENTORY, Dynamic, NotBlank, Listing;
    ListingHolds(DIRECT_INVENTORY);
    ChildNamesDiffer();
    DirectNamesFine();
    ChildCount();
    DistinctAppend(Listing(DIRECT_INVENTORY), CHILD_NAMES);
  }

  lemma DistinctAppend(a: seq<Key>, b: seq<Key>)
    requires Distinct(a) && Distinct(b)
    requires forall k :: k in a ==> !Dynamic(k.0)
    requires forall i :: 0 <= i < |b| ==> Dynamic(b[i].0)
    ensures Distinct(a + b)
  {
    forall i, j | 0 <= i < j < |a + b| ensures (a + b)[i] != (a + b)[j] {
      if i < |a| <= j {
        assert a[i] in a;
      }
    }
  }

  lemma ChildCount()
    ensures |CHILD_NAMES| == 5 == |PARENTS| == |CHILDREN|
  {
  }

  /** A namespace UID that cannot clash with the other UIDs of the example. */
  predicate FreshNamespaceUid(uid: string) {
    uid != "" && uid[0] == 'u'
  }

  lemma ObjectsFine(run: RunIdentity, namespaceUid: string)
    requires FreshNamespaceUid(namespaceUid)
    ensures ObjectsAdmissible(run, {"c", namespaceUid}, Objects(run))
    ensures forall o :: o in Objects(run) ==> o.Key() in Keys()
    ensures forall i :: 0 <= i < |Keys()| ==> Objects(run)[i].Key() == Keys()[i]
  {
    hide *;
    KeysDistinct();
    var objects := Objects(run);
    ObjectsListed(run);
    forall o | o in objects ensures Admissible(o, run) && o.uid !in {"c", namespaceUid} && o.Key() in Keys() {
      var i :| 0 <= i < |objects| && objects[i] == o;
      assert Keys()[i] in Keys();
      KeyFine(Keys()[i]);
      RecordFine(run, Keys()[i], i, OwnersAt(i));
      ReservedDiffer(o.uid, namespaceUid);
    }
    forall i, j | 0 <= i < j < |objects| ensures objects[i].uid != objects[j].uid && objects[i].Key() != objects[j].Key() {
      KeysDiffer(i, j);
      RecordFine(run, Keys()[i], i, OwnersAt(i));
      RecordFine(run, Keys()[j], j, OwnersAt(j));
    }
    UniqueFine(objects);
    AdmissibleConverse(run, {"c", namespaceUid}, objects);
  }

  lemma ReservedDiffer(uid: string, namespaceUid: string)
    requires uid != "" && uid[0] == 'x' && FreshNamespaceUid(namespaceUid)
    ensures uid !in {"c", namespaceUid}
  {
    assert "c"[0] == 'c';
  }

  lemma UniqueFine(objects: seq<ObjectRecord>)
    requires forall i, j :: 0 <= i < j < |objects| ==> objects[i].uid != objects[j].uid && objects[i].Key() != objects[j].Key()
    ensures UniqueKeys(objects) && UniqueUids(objects)
  {
  }

  lemma KeyFine(k: Key)
    requires k in Keys()
    ensures !k.0.OtherKind? && NotBlank(k.1)
  {
    hide CHILD_NAMES, DIRECT_INVENTORY;
    KeysDistinct();
    ChildNamesDiffer();
    DirectNamesFine();
  }

  lemma RecordFine(run: RunIdentity, key: Key, i: nat, owners: seq<Owner>)
    ensures var o := Record(run, key, i, owners);
            && (NotBlank(key.1) && !key.0.OtherKind? ==> Admissible(o, run))
            && o.uid != "" && o.uid[0] == 'x' && |o.uid| == i + 1 && o.Key() == key
  {
    LabelsCarry(run);
    var o := Record(run, key, i, owners);
    assert o.uid[0] == 'x' && !Blank(o.uid[0]);
  }

  lemma ObjectsListed(run: RunIdentity)
    ensures |Objects(run)| == |Keys()|
    ensures forall i :: 0 <= i < |Keys()| ==> Objects(run)[i] == Record(run, Keys()[i], i, OwnersAt(i)) && Objects(run)[i].Key() == Keys()[i]
  {
  }

  lemma KeysDiffer(i: nat, j: nat)
    requires i < j < |Keys()|
    ensures Keys()[i] != Keys()[j]
  {
    hide Keys;
    KeysDistinct();
  }

  // ----- owner chains -----

  /** The i-th child fits the i-th pattern, and its parent fits the pattern's owner. */
  lemma ChildFits(i: nat)
    requires i < 5
    ensures CHILD_NAMES[i].0 == CHILDREN[i].kind && NameMatches(CHILD_NAMES[i].1, CHILDREN[i].name)
    ensures PARENTS[i].0 == CHILDREN[i].ownerKind && NameMatches(PARENTS[i].1, CHILDREN[i].ownerName)
    ensures PARENTS[i] in DIRECT_INVENTORY || PARENTS[i] in CHILD_NAMES
  {
    if i == 0 {
      assert PARENTS[0] in WORKLOADS;
      assert !HasSuffix("module4d-mongo", "-") by { assert "module4d-mongo"[13..] == "o"; }
      assert !HasSuffix("module4d-mongo-0", "-") by { assert "module4d-mongo-0"[15..] == "0"; }
    } else if i == 1 {
      assert PARENTS[1] in WORKLOADS;
    }
  }

  ghost function At(run: RunIdentity, key: Key): ObjectRecord
    requires key in Keys()
  {
    IndexHolds(Keys(), key);
    Objects(run)[IndexOf(Keys(), key)]
  }

  /** The records are exactly the ones at the listed keys. */
  lemma AtHolds(run: RunIdentity, key: Key)
    requires key in Keys()
    ensures At(run, key) in Objects(run) && At(run, key).Key() == key && At(run, key).uid == Uid(IndexOf(Keys(), key))
    ensures At(run, key).labels == ExampleLabels(run)
    ensures forall o :: o in Objects(run) ==> (o.Key() == key <==> o == At(run, key))
  {
    hide CHILD_NAMES, DIRECT_INVENTORY, Keys;
    IndexHolds(Keys(), key);
    KeysDistinct();
    ObjectsListed(run);
    var n := IndexOf(Keys(), key);
    forall o | o in Objects(run) && o.Key() == key ensures o == Objects(run)[n] {
      var i :| 0 <= i < |Objects(run)| && Objects(run)[i] == o;
      assert Keys()[i] == Keys()[n];
    }
  }

  lemma ChildKeys(i: nat)
    requires i < 5
    ensures |CHILD_NAMES| == 5 && CHILD_NAMES[i] in Keys() && PARENTS[i] in Keys()
    ensures i == 2 || i == 4 ==> PARENTS[i] == CHILD_NAMES[i - 1] && CHILDREN[i].ownerKind == CHILDREN[i - 1].kind
                                 && CHILDREN[i].ownerName == CHILDREN[i - 1].name
  {
    hide DIRECT_INVENTORY, Keys;
    KeysDistinct();
    ChildFits(i);
  }

  lemma ChildOnly(run: RunIdentity, i: nat)
    requires i < 5
    ensures CHILD_NAMES[i] in Keys()
    ensures forall o :: o in Objects(run) ==> (Fits(o, CHILDREN[i]) <==> o == At(run, CHILD_NAMES[i]))
  {
    hide CHILD_NAMES, CHILDREN, PARENTS, DIRECT_INVENTORY, Keys, NameMatches;
    ChildCount();
    ChildKeys(i);
    KeysDistinct();
    ObjectsFine(run, "u");
    DirectNamesFine();
    PatternLinksAll();
    AtHolds(run, CHILD_NAMES[i]);
    ChildFits(i);
    forall o | o in Objects(run) && Fits(o, CHILDREN[i]) ensures o.Key() == CHILD_NAMES[i] {
      assert o.Key() in CHILD_NAMES;
      var j :| 0 <= j < |CHILD_NAMES| && CHILD_NAMES[j] == o.Key();
      ChildFits(j);
      PatternsExclusive(o, i, j);
    }
  }

  lemma DashlessOwners(i: nat, name: string)
    requires i == 0 || i == 1 || i == 3
    ensures NameMatches(name, CHILDREN[i].ownerName) <==> name == PARENTS[i].1
    ensures PARENTS[i].0 == CHILDREN[i].ownerKind
  {
    assert "module4d-mongo"[13..] == "o" && "module4d-api"[11..] == "i" && "module4d-ui"[10..] == "i";
  }

  lemma ParentOnly(run: RunIdentity, i: nat)
    requires i < 5
    ensures PARENTS[i] in Keys()
    ensures forall o :: o in Objects(run) ==>
              (o.kind == CHILDREN[i].ownerKind && NameMatches(o.name, CHILDREN[i].ownerName) <==> o == At(run, PARENTS[i]))
  {
    hide CHILD_NAMES, CHILDREN, PARENTS, DIRECT_INVENTORY, Keys, NameMatches;
    ChildCount();
    ChildKeys(i);
    AtHolds(run, PARENTS[i]);
    if i == 2 || i == 4 {
      ChildOnly(run, i - 1);
    } else {
      forall o | o in Objects(run) {
        DashlessOwners(i, o.name);
      }
    }
  }

  lemma ChildOwned(run: RunIdentity, i: nat)
    requires i < 5
    ensures CHILD_NAMES[i] in Keys() && PARENTS[i] in Keys()
    ensures At(run, CHILD_NAMES[i]).ControlledBy(At(run, PARENTS[i]))
  {
    hide DIRECT_INVENTORY;
    ChildCount();
    ChildKeys(i);
    KeysDistinct();
    AtHolds(run, PARENTS[i]);
    AtHolds(run, CHILD_NAMES[i]);
    var n := |Listing(DIRECT_INVENTORY)|;
    ObjectsListed(run);
    assert Keys()[n + i] == CHILD_NAMES[i];
    assert Objects(run)[n + i].Key() == CHILD_NAMES[i] && Objects(run)[n + i] in Objects(run);
  }

  lemma OneChildFine(run: RunIdentity, i: nat)
    requires i < 5 && |CHILDREN| == 5
    ensures ChildBound(Elements(Objects(run)), CHILDREN[i])
  {
    hide CHILD_NAMES, CHILDREN, PARENTS, DIRECT_INVENTORY, Keys, NameMatches, Objects, At, ExampleLabels;
    ChildCount();
    var objs := Elements(Objects(run));
    ChildOnly(run, i);
    ParentOnly(run, i);
    ChildOwned(run, i);
    AtHolds(run, CHILD_NAMES[i]);
    AtHolds(run, PARENTS[i]);
    assert Matching(objs, CHILDREN[i].kind, CHILDREN[i].name) == {At(run, CHILD_NAMES[i])};
    assert Matching(objs, CHILDREN[i].ownerKind, CHILDREN[i].ownerName) == {At(run, PARENTS[i])};
  }

  lemma ChildrenFine(run: RunIdentity)
    ensures ChildrenBound(Elements(Objects(run)), CHILDREN)
  {
    hide CHILD_NAMES, CHILDREN, PARENTS, DIRECT_INVENTORY, Keys, NameMatches, Objects, ChildBound, FitsOne;
    ChildCount();
    forall i | 0 <= i < 5 ensures ChildBound(Elements(Objects(run)), CHILDREN[i]) {
      OneChildFine(run, i);
    }
    forall o | o in Elements(Objects(run)) && Dynamic(o.kind) ensures FitsOne(o, CHILDREN) {
      DynamicFits(run, o);
    }
  }

  lemma DynamicFits(run: RunIdentity, o: ObjectRecord)
    requires o in Objects(run) && Dynamic(o.kind)
    ensures FitsOne(o, CHILDREN)
  {
    hide CHILD_NAMES, CHILDREN, PARENTS, DIRECT_INVENTORY, Keys, NameMatches, Objects;
    ChildCount();
    KeysDistinct();
    ObjectsFine(run, "u");
    DirectNamesFine();
    assert o.Key() in CHILD_NAMES;
    var j :| 0 <= j < |CHILD_NAMES| && CHILD_NAMES[j] == o.Key();
    ChildFits(j);
  }

  lemma RecordedKeys(run: RunIdentity)
    ensures forall k :: k in ByKey(Objects(run)) <==> k in Keys()
  {
    assert FreshNamespaceUid("u");
    ObjectsFine(run, "u");
    hide Keys, Objects, At, ByKey, ObjectsAdmissible, ExampleLabels, FreshNamespaceUid, DIRECT_INVENTORY, CHILD_NAMES;
    ByKeyHolds(Objects(run));
    forall k | k in Keys() ensures k in ByKey(Objects(run)) {
      AtHolds(run, k);
    }
  }

  lemma DirectFine(run: RunIdentity)
    ensures DirectKeys(ByKey(Objects(run)).Keys) == DIRECT_INVENTORY
  {
    hide CHILD_NAMES, DIRECT_INVENTORY, Keys, Objects, ByKey;
    RecordedKeys(run);
    KeysDistinct();
    ChildNamesDiffer();
    DirectNamesFine();
  }

  // ----- storage and images -----

  const CLAIM: Key := (PersistentVolumeClaim, "data-module4d-mongo-0")
  const DATABASE: Key := (StatefulSet, "module4d-mongo")

  lemma StorageKeys()
    ensures CLAIM in Keys() && DATABASE in Keys()
  {
    hide Keys;
    KeysDistinct();
    assert CLAIM in WORKLOADS && DATABASE in WORKLOADS;
  }

  ghost function ExampleStorage(run: RunIdentity, exp: Expectation): Storage {
    StorageKeys();
    var claim, database := At(run, CLAIM), At(run, DATABASE);
    Storage(CLAIM.1, claim.uid, "v", "v", run.Namespace(), CLAIM.1, claim.uid, exp.storageClass, "s", exp.provisioner,
            "2Gi", "2Gi", "ReadWriteOnce", true, "hostPath", "/tmp/hostpath-provisioner/v", database.uid, "k", "k",
            "data", "Retain", "Retain")
  }

  /** What a lock must say for a receipt to be acceptable at all. */
  predicate Usable(exp: Expectation) {
    && NotBlank(exp.storageClass) && NotBlank(exp.provisioner)
    && exp.images.Keys == SERVING_ROLES && (forall role :: role in exp.images ==> IsDigest(exp.images[role]))
    && exp.clusterImages.Keys == CLUSTER_ROLES
    && forall k :: k in exp.clusterImages ==> '@' in exp.clusterImages[k] && IsDigest(DigestPart(exp.clusterImages[k]))
  }

  lemma Visible(s: string)
    requires s != "" && !Blank(s[0])
    ensures NotBlank(s)
  {
  }

  /** The declared fields are complete, whatever the two UIDs and the namespace. */
  lemma StorageFields(run: RunIdentity, exp: Expectation)
    requires Usable(exp) && CLAIM in Keys() && DATABASE in Keys()
    requires NotBlank(At(run, CLAIM).uid) && NotBlank(At(run, DATABASE).uid)
    ensures StorageComplete(ExampleStorage(run, exp)) && StorageAsDeclared(ExampleStorage(run, exp), exp)
  {
    hide At, Keys, NotBlank, SERVING_ROLES, CLUSTER_ROLES;
    var st := ExampleStorage(run, exp);
    Visible(st.claimName);
    Visible("v");
    Visible("s");
    Visible("k");
    Visible(st.pvClaimNamespace);
    Visible("2Gi");
    Visible("ReadWriteOnce");
    Visible("hostPath");
    Visible(st.localityPath);
    Visible("data");
    Visible("Retain");
  }

  lemma StorageUidsFine(run: RunIdentity, exp: Expectation, namespaceUid: string)
    requires FreshNamespaceUid(namespaceUid)
    ensures StorageUidsNew(ExampleStorage(run, exp), {"c", namespaceUid} + UidsOf(Objects(run)))
  {
    hide At, Keys, Objects;
    UidsLookAlike(run);
    UidsOfHolds(Objects(run));
    assert "v"[0] == 'v' && "s"[0] == 's' && "k"[0] == 'k' && "c"[0] == 'c';
  }

  lemma StorageFine(run: RunIdentity, exp: Expectation, namespaceUid: string)
    requires Usable(exp) && FreshNamespaceUid(namespaceUid)
    ensures StorageContract(run, ExampleStorage(run, exp), ByKey(Objects(run)), {"c", namespaceUid} + UidsOf(Objects(run)), exp)
  {
    hide CHILD_NAMES, DIRECT_INVENTORY, Keys, LabelIs, ExampleLabels, NotBlank, StorageComplete, StorageAsDeclared,
         StorageUidsNew, ObjectsAdmissible, Objects, At, UidsOf, Usable, FreshNamespaceUid;
    StorageKeys();
    AtHolds(run, CLAIM);
    AtHolds(run, DATABASE);
    LabelsCarry(run);
    ByKeyHolds(Objects(run));
    ObjectsFine(run, namespaceUid);
    AdmissibleObjects(run, {"c", namespaceUid}, Objects(run));
    ClaimUnowned(run);
    StorageFields(run, exp);
    StorageUidsFine(run, exp, namespaceUid);
    assert ClaimOwned(run, ExampleStorage(run, exp), At(run, CLAIM), At(run, DATABASE));
  }

  lemma UidsLookAlike(run: RunIdentity)
    ensures forall o :: o in Objects(run) ==> o.uid != "" && o.uid[0] == 'x'
  {
  }

  lemma ClaimUnowned(run: RunIdentity)
    ensures CLAIM in Keys() && At(run, CLAIM).owners == []
  {
    hide CHILD_NAMES, DIRECT_INVENTORY;
    StorageKeys();
    ListingHolds(DIRECT_INVENTORY);
    KeysDistinct();
    assert CLAIM in WORKLOADS;
    assert CLAIM in DIRECT_INVENTORY by { ClaimDirect(); }
    var i :| 0 <= i < |Listing(DIRECT_INVENTORY)| && Listing(DIRECT_INVENTORY)[i] == CLAIM;
    assert Keys()[i] == CLAIM;
    IndexHolds(Keys(), CLAIM);
  }

  lemma ClaimDirect()
    ensures CLAIM in DIRECT_INVENTORY
  {
    assert CLAIM in WORKLOADS;
  }

  const ROLE_LIST: seq<string> := ["mongo", "api_application_image", "ui_application_image"]
  const ROLE_CHILD: seq<nat> := [0, 2, 4]

  ghost function ExampleImage(run: RunIdentity, exp: Expectation, i: nat): Image
    requires i < 3 && Usable(exp)
  {
    RoleHolds(i);
    var digest := exp.images[ROLE_LIST[i]];
    Image(ROLE_LIST[i], At(run, CHILD_NAMES[ROLE_CHILD[i]]).uid, "c", "x@" + digest, "@" + digest, digest, digest)
  }

  lemma RoleHolds(i: nat)
    requires i < 3
    ensures ROLE_LIST[i] in SERVING_ROLES && ROLE_CHILD[i] < 5 && CHILD_NAMES[ROLE_CHILD[i]] in Keys()
    ensures RolePod(ROLE_LIST[i]) == Some(CHILDREN[ROLE_CHILD[i]].name) && CHILD_NAMES[ROLE_CHILD[i]].0.Pod?
    ensures |SERVING_ROLES| == 3 == |ROLE_LIST|
  {
    hide Keys;
    ChildKeys(ROLE_CHILD[i]);
    var a, b, c := "mongo", "api_application_image", "ui_application_image";
    assert a[0] == 'm' && b[0] == 'a' && c[0] == 'u';
    assert SERVING_ROLES == {a, b, c};
  }

  lemma {:induction false} DigestAfterAt(prefix: string, digest: string)
    requires '@' !in digest
    ensures DigestPart(prefix + "@" + digest) == digest
    decreases |digest|
  {
    if digest == "" {
      assert (prefix + "@" + digest)[|prefix|] == '@';
    } else {
      var shorter := digest[..|digest| - 1];
      DigestAfterAt(prefix, shorter);
      var all := prefix + "@" + digest;
      assert all[..|all| - 1] == prefix + "@" + shorter;
    }
  }

  lemma DigestHasNoAt(digest: string)
    requires IsDigest(digest)
    ensures '@' !in digest
  {
    forall i | 0 <= i < |digest| ensures digest[i] != '@' {
      assert i < 7 ==> digest[i] == digest[..7][i];
    }
  }

  lemma ImageFields(run: RunIdentity, exp: Expectation, i: nat)
    requires i < 3 && Usable(exp)
    ensures ImageLocked(ExampleImage(run, exp, i), exp)
  {
    hide At, Keys, CHILD_NAMES, IsDigest, SERVING_ROLES, CLUSTER_ROLES;
    RoleHolds(i);
    var image := ExampleImage(run, exp, i);
    DigestHasNoAt(image.digest);
    DigestAfterAt("x", image.digest);
    Visible("c");
    assert image.runtimeImageId[0..] == "@" + image.digest;
    assert "x@" + image.digest == "x" + "@" + image.digest && image.declaredReference[1] == '@';
  }

  lemma ImageFine(run: RunIdentity, exp: Expectation, i: nat)
    requires i < 3 && Usable(exp)
    ensures ImageAdmissible(ExampleImage(run, exp, i), Elements(Objects(run)), exp)
  {
    hide CHILD_NAMES, CHILDREN, DIRECT_INVENTORY, Keys, NameMatches, ImageLocked, Objects, At, Usable, RolePod;
    RoleHolds(i);
    ChildCount();
    var child := CHILD_NAMES[ROLE_CHILD[i]];
    ChildFits(ROLE_CHILD[i]);
    AtHolds(run, child);
    ImageFields(run, exp, i);
    var image := ExampleImage(run, exp, i);
    assert RunsRole(At(run, child), image);
    PodProves(image, Elements(Objects(run)), exp, At(run, child));
  }

  lemma PodProves(image: Image, objs: set<ObjectRecord>, exp: Expectation, pod: ObjectRecord)
    requires ImageLocked(image, exp) && pod in objs && RunsRole(pod, image)
    ensures ImageAdmissible(image, objs, exp)
  {
    hide ImageLocked, RunsRole;
    assert pod in PodsRunning(objs, image);
  }

  ghost function ExampleImages(run: RunIdentity, exp: Expectation): seq<Image>
    requires Usable(exp)
  {
    [ExampleImage(run, exp, 0), ExampleImage(run, exp, 1), ExampleImage(run, exp, 2)]
  }

  lemma ImagesFine(run: RunIdentity, exp: Expectation)
    requires Usable(exp)
    ensures ImagesAdmissible(ExampleImages(run, exp), Elements(Objects(run)), exp)
  {
    hide ExampleImage, ImageAdmissible, Usable, IsDigest;
    ImageFine(run, exp, 0);
    ImageFine(run, exp, 1);
    ImageFine(run, exp, 2);
    RolesOfImages(run, exp);
    ImagesConverse(ExampleImages(run, exp), Elements(Objects(run)), exp);
  }

  lemma RolesOfImages(run: RunIdentity, exp: Expectation)
    requires Usable(exp)
    ensures DistinctBy(ExampleImages(run, exp), (m: Image) => m.role)
  {
    hide Usable, At, Keys, CHILD_NAMES, SERVING_ROLES, CLUSTER_ROLES;
    assert ROLE_LIST[0][0] == 'm' && ROLE_LIST[1][0] == 'a' && ROLE_LIST[2][0] == 'u';
  }

  // ----- the receipt -----

  ghost function Example(run: RunIdentity, exp: Expectation, namespaceUid: string): Receipt
    requires Usable(exp)
  {
    Receipt(run.Profile(), run.Profile(), "c", run.Namespace(), namespaceUid, run.RunLabels(), Objects(run),
            ExampleStorage(run, exp), ExampleImages(run, exp), exp.clusterImages)
  }

  lemma TargetFine(run: RunIdentity, exp: Expectation, namespaceUid: string)
    requires Usable(exp) && FreshNamespaceUid(namespaceUid)
    ensures TargetsRun(run, Example(run, exp, namespaceUid))
  {
    hide Objects, ExampleStorage, ExampleImages, NotBlank, Usable, PROTECTED_NAMESPACES;
    Visible("c");
    Visible(namespaceUid);
    NamespaceFree(run);
  }

  lemma NamespaceFree(run: RunIdentity)
    ensures run.Namespace() !in PROTECTED_NAMESPACES
  {
    var namespace := run.Namespace();
    assert namespace[0] == 'i';
    assert forall p :: p in PROTECTED_NAMESPACES ==> p[0] != 'i';
  }

  lemma UsableIfAccepted(run: RunIdentity, r: Receipt, exp: Expectation)
    requires Accepts(run, r, exp)
    ensures Usable(exp)
  {
    hide IsDigest, NotBlank, DigestPart, Contains, HasSuffix, ChildrenBound, ObjectsAdmissible, DIRECT_INVENTORY, SERVING_ROLES, CLUSTER_ROLES;
    forall role | role in exp.images ensures IsDigest(exp.images[role]) {
      OneImagePerRole(run, r, exp, role);
      var m :| m in r.images && m.role == role && m.digest == exp.images[role];
      ImagesUnique(r.images, Elements(r.objects), exp);
      assert ImageAdmissible(m, Elements(r.objects), exp);
    }
  }

  /** Whatever the run, some receipt is accepted exactly when the lock's expectation is usable. */
  lemma AcceptedReceiptExistsExactly(run: RunIdentity, exp: Expectation)
    ensures (exists r :: Accepts(run, r, exp)) <==> Usable(exp)
  {
    hide Accepts, Usable;
    assert FreshNamespaceUid("u");
    if r :| Accepts(run, r, exp) {
      UsableIfAccepted(run, r, exp);
    }
    if Usable(exp) {
      ExampleAccepted(run, exp, "u");
    }
  }

  lemma ExampleAccepted(run: RunIdentity, exp: Expectation, namespaceUid: string)
    requires Usable(exp) && FreshNamespaceUid(namespaceUid)
    ensures Accepts(run, Example(run, exp, namespaceUid), exp)
  {
    hide TargetsRun, ObjectsAdmissible, DirectKeys, ChildrenBound, StorageContract, ImagesAdmissible, Objects, ExampleStorage,
         ExampleImage, CHILDREN, DIRECT_INVENTORY, ByKey, UidsOf, IsDigest, NotBlank, DigestPart, SERVING_ROLES, CLUSTER_ROLES;
    TargetFine(run, exp, namespaceUid);
    ObjectsFine(run, namespaceUid);
    DirectFine(run);
    ChildrenFine(run);
    StorageFine(run, exp, namespaceUid);
    ImagesFine(run, exp);
    RoleHolds(0);
  }
}
