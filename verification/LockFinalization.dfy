/** Finalising the version lock from a template and runtime evidence (scripts/k8s/lock_lifecycle.py). */
module LockFinalization {
  import opened Wrappers
  import opened Collections
  import opened JsonValues
  import opened SharedMappings

  const MERGED_SECTIONS := {"cluster", "host_capacity", "images", "python_dependencies", "toolchain", "storage"}
  const PROVENANCE := "image_provenance"
  const REPLACED := {PROVENANCE, "status", "unresolved"}
  const PINNED_FIELDS := ["kubernetes_version", "driver", "container_runtime", "cni", "cni_version", "node_count"]
  const TEXT_CHOICES := ["kubernetes_version", "minikube_version", "cni_version", "driver", "container_runtime", "cni"]
  const IDENTITY_FIELDS := ["profile", "context", "cluster_uid", "architecture"]
  const BASE_ROLES := ["mongo", "spark_base", "ui_base"]

  /** The remaining field rules of the three validators; they look at one lock and nothing else. */
  datatype FieldRules = FieldRules(committed: Json -> bool, provenance: Json -> bool, version: Json -> bool)

  datatype LockError =
    | StaticInvalid
    | EvidenceShape
    | SectionsMissing
    | ClusterMismatch
    | IdentityIncomplete
    | ToolchainMismatch
    | BaseImageMismatch
    | SectionShape
    | ProvenanceInvalid
    | VersionInvalid

  predicate NonEmptyText(json: Json) {
    json.Text? && json.text != ""
  }

  /** What `validate_static_lock` requires of the shapes, as far as finalisation relies on it. */
  predicate StaticShape(lock: Json) {
    && lock.Obj?
    && Field(lock, "cluster").Obj? && Field(lock, "images").Obj? && Field(lock, "storage").Obj?
    && (forall f :: f in TEXT_CHOICES ==> Field(Field(lock, "cluster"), f).Text?)
    && (forall role :: role in BASE_ROLES ==> role in Field(lock, "images").fields)
    && (forall role :: role in Field(lock, "images").fields ==> Field(Field(lock, "images"), role).Obj?)
  }

  predicate StaticOk(lock: Json, rules: FieldRules) {
    StaticShape(lock) && rules.committed(lock)
  }

  /** `validate_version_lock`: the nodes are counted, the toolchain's Minikube is the cluster's, and the other rules. */
  predicate VersionOk(lock: Json, rules: FieldRules) {
    && Field(Field(lock, "cluster"), "node_count").Number? && Field(Field(lock, "cluster"), "node_count").number >= 1
    && Field(Field(lock, "toolchain"), "minikube_version") == Field(Field(lock, "cluster"), "minikube_version")
    && rules.version(lock)
  }

  predicate ClusterAgrees(template: Json, evidence: Json) {
    var observed := Field(evidence, "cluster");
    && observed.Obj?
    && forall f :: f in PINNED_FIELDS ==> f in observed.fields && observed.fields[f] == Field(Field(template, "cluster"), f)
  }

  predicate IdentityComplete(evidence: Json) {
    var observed := Field(evidence, "cluster");
    && (forall f :: f in IDENTITY_FIELDS ==> NonEmptyText(Field(observed, f)))
    && Field(observed, "profile") == Field(observed, "context")
  }

  predicate ToolchainAgrees(template: Json, evidence: Json) {
    && Field(evidence, "toolchain").Obj?
    && Field(Field(evidence, "toolchain"), "minikube_version") == Field(Field(template, "cluster"), "minikube_version")
  }

  predicate BaseImagesAgree(template: Json, evidence: Json) {
    var observed := Field(evidence, "images");
    && observed.Obj?
    && forall role :: role in BASE_ROLES ==> role in observed.fields ==>
         observed.fields[role] == Field(Field(template, "images"), role)
  }

  /** The section can be merged: mappings on both sides, or nothing to write into something else. */
  predicate Mergeable(template: Json, evidence: Json, section: string) {
    var update := Field(evidence, section);
    update.Obj? && (template.Obj? && section in template.fields && !template.fields[section].Obj? ==> update.fields == map[])
  }

  function SectionOf(template: Json, evidence: Json, section: string): Json {
    if template.Obj? && section in template.fields
    then if template.fields[section].Obj? then Merge(template.fields[section], Field(evidence, section)) else template.fields[section]
    else Field(evidence, section)
  }

  /** The template with some of the sections taken from the evidence. */
  function Sections(template: Json, evidence: Json, done: set<string>): Json
    requires template.Obj?
  {
    Obj(map k | k in template.fields.Keys + done ::
      if k !in done then template.fields[k]
      else if k == PROVENANCE then Field(evidence, k)
      else SectionOf(template, evidence, k))
  }

  function Finalized(template: Json, evidence: Json): Json
    requires template.Obj?
  {
    With(With(Sections(template, evidence, MERGED_SECTIONS + {PROVENANCE}), "status", Text("complete")), "unresolved", Items([]))
  }

  predicate MayFinalize(template: Json, evidence: Json, rules: FieldRules) {
    && StaticOk(template, rules)
    && evidence.Obj? && MERGED_SECTIONS + {PROVENANCE} <= evidence.fields.Keys
    && ClusterAgrees(template, evidence) && IdentityComplete(evidence)
    && ToolchainAgrees(template, evidence) && BaseImagesAgree(template, evidence)
    && (forall section :: section in MERGED_SECTIONS ==> Mergeable(template, evidence, section))
    && rules.provenance(Finalized(template, evidence)) && VersionOk(Finalized(template, evidence), rules)
  }

  // ----- what a finalised lock keeps -----

  lemma FinalizedFields(template: Json, evidence: Json, key: string)
    requires template.Obj?
    ensures Finalized(template, evidence).Obj?
    ensures key in MERGED_SECTIONS ==> Field(Finalized(template, evidence), key) == SectionOf(template, evidence, key)
    ensures key !in MERGED_SECTIONS + {PROVENANCE, "status", "unresolved"} ==>
              Field(Finalized(template, evidence), key) == Field(template, key)
    ensures Field(Finalized(template, evidence), PROVENANCE) == Field(evidence, PROVENANCE)
  {
  }

  /** A value that the evidence repeats is the value after the merge. */
  lemma RepeatedField(section: Json, updates: Json, f: string)
    requires section.Obj? && updates.Obj?
    requires f in updates.fields ==> updates.fields[f] == Field(section, f)
    ensures Field(Merge(section, updates), f) == Field(section, f)
  {
    if f in section.fields {
      MergeSelf(section.fields[f]);
    }
  }

  lemma PinnedFieldsKept(template: Json, evidence: Json, rules: FieldRules)
    requires MayFinalize(template, evidence, rules)
    ensures var lock := Finalized(template, evidence);
            && (forall f :: f in PINNED_FIELDS ==> Field(Field(lock, "cluster"), f) == Field(Field(template, "cluster"), f))
            && Field(Field(lock, "cluster"), "minikube_version") == Field(Field(template, "cluster"), "minikube_version")
            && (forall role :: role in BASE_ROLES ==> Field(Field(lock, "images"), role) == Field(Field(template, "images"), role))
  {
    var lock := Finalized(template, evidence);
    FinalizedFields(template, evidence, "cluster");
    FinalizedFields(template, evidence, "images");
    FinalizedFields(template, evidence, "toolchain");
    var cluster, images := Field(template, "cluster"), Field(template, "images");
    forall f | f in PINNED_FIELDS ensures Field(Field(lock, "cluster"), f) == Field(cluster, f) {
      RepeatedField(cluster, Field(evidence, "cluster"), f);
    }
    forall role | role in BASE_ROLES ensures Field(Field(lock, "images"), role) == Field(images, role) {
      RepeatedField(images, Field(evidence, "images"), role);
    }
    ToolchainDecides(template, evidence, rules);
  }

  lemma FinalizedEntries(template: Json, evidence: Json)
    requires template.Obj?
    ensures var lock := Finalized(template, evidence);
            && Field(lock, "status") == Text("complete") && Field(lock, "unresolved") == Items([])
            && Field(lock, "image_provenance") == Field(evidence, "image_provenance")
  {
    assert "status" != "unresolved";
    FinalizedFields(template, evidence, PROVENANCE);
  }

  lemma PinnedNames()
    ensures forall f :: f in PINNED_FIELDS <==> f in {"kubernetes_version", "driver", "container_runtime", "cni", "cni_version", "node_count"}
    ensures forall role :: role in BASE_ROLES <==> role in {"mongo", "spark_base", "ui_base"}
  {
  }

  /** A finalised lock keeps the template's cluster choices, Minikube version and base images. */
  lemma StaticChoicesPinned(template: Json, evidence: Json, rules: FieldRules)
    requires MayFinalize(template, evidence, rules)
    ensures var lock := Finalized(template, evidence);
            && (forall f :: f in {"kubernetes_version", "driver", "container_runtime", "cni", "cni_version", "node_count", "minikube_version"} ==>
                  Field(Field(lock, "cluster"), f) == Field(Field(template, "cluster"), f))
            && (forall role :: role in {"mongo", "spark_base", "ui_base"} ==>
                  Field(Field(lock, "images"), role) == Field(Field(template, "images"), role))
            && Field(lock, "status") == Text("complete") && Field(lock, "unresolved") == Items([])
            && Field(lock, "image_provenance") == Field(evidence, "image_provenance")
  {
    FinalizedEntries(template, evidence);
    PinnedFieldsKept(template, evidence, rules);
    PinnedNames();
    hide Finalized, MayFinalize, PINNED_FIELDS, BASE_ROLES, Field;
  }

  /** The toolchain section of the lock carries the evidence's Minikube version. */
  lemma ToolchainDecides(template: Json, evidence: Json, rules: FieldRules)
    requires MayFinalize(template, evidence, rules)
    ensures Field(Field(Finalized(template, evidence), "toolchain"), "minikube_version") == Field(Field(template, "cluster"), "minikube_version")
  {
    assert Field(Field(evidence, "toolchain"), "minikube_version").Text? by {
      assert "minikube_version" in TEXT_CHOICES;
    }
    hide Finalized, SectionOf, StaticOk, VersionOk, ClusterAgrees, IdentityComplete, BaseImagesAgree;
    FinalizedFields(template, evidence, "toolchain");
    TextWins(template, evidence, "toolchain", "minikube_version");
  }

  lemma TextWins(template: Json, evidence: Json, section: string, f: string)
    requires Mergeable(template, evidence, section) && Field(Field(evidence, section), f).Text?
    ensures Field(SectionOf(template, evidence, section), f) == Field(Field(evidence, section), f)
  {
    var update := Field(evidence, section);
    assert f in update.fields && update.fields != map[];
    if template.Obj? && section in template.fields {
      var present := template.fields[section];
      assert present.Obj?;
      assert f in present.fields ==> Merge(present.fields[f], update.fields[f]) == update.fields[f];
      assert Field(Merge(present, update), f) == update.fields[f];
    }
  }

  /** Every path of a merged section that the evidence does not reach keeps its value. */
  lemma UnmentionedPathsKept(template: Json, evidence: Json, rules: FieldRules, section: string, path: seq<string>)
    requires MayFinalize(template, evidence, rules) && section in MERGED_SECTIONS && section in template.fields
    requires Silent(Field(evidence, section), path)
    ensures Get(Field(Finalized(template, evidence), section), path) == Get(template.fields[section], path)
  {
    FinalizedFields(template, evidence, section);
    MergeAtPath(template.fields[section], Field(evidence, section), path);
  }

  /** A second finalisation with the same evidence gives the same lock, and passes exactly when the lock passes the static rules. */
  lemma FinalizingAgain(template: Json, evidence: Json, rules: FieldRules)
    requires MayFinalize(template, evidence, rules)
    ensures var lock := Finalized(template, evidence);
            && Finalized(lock, evidence) == lock
            && (MayFinalize(lock, evidence, rules) <==> StaticOk(lock, rules))
  {
    var lock := Finalized(template, evidence);
    PinnedFieldsKept(template, evidence, rules);
    SameLock(template, evidence, rules);
    forall section | section in MERGED_SECTIONS ensures Mergeable(lock, evidence, section) {
      FinalizedFields(template, evidence, section);
      assert Mergeable(template, evidence, section);
    }
  }

  lemma SameLock(template: Json, evidence: Json, rules: FieldRules)
    requires MayFinalize(template, evidence, rules)
    ensures Finalized(Finalized(template, evidence), evidence) == Finalized(template, evidence)
  {
    var lock := Finalized(template, evidence);
    var again := Finalized(lock, evidence);
    assert again.fields.Keys == lock.fields.Keys;
    forall k | k in lock.fields ensures again.fields[k] == lock.fields[k] {
      if k in MERGED_SECTIONS {
        FinalizedFields(template, evidence, k);
        FinalizedFields(lock, evidence, k);
        assert Mergeable(template, evidence, k);
        MergeAgain(if k in template.fields then template.fields[k] else Field(evidence, k), Field(evidence, k));
        MergeSelf(Field(evidence, k));
      }
    }
    assert again.fields == lock.fields;
  }

  // ----- finalisation on the heap -----

  /** Some listing of the required sections; a Python set promises no order. */
  ghost predicate ListsSections(sections: seq<string>) {
    Distinct(sections) && Elements(sections) == MERGED_SECTIONS + {PROVENANCE}
  }

  ghost predicate Covers(evidence: Json, order: Order, sections: seq<string>) {
    evidence.Obj? && Ordered(evidence, order) && Elements(sections) <= evidence.fields.Keys
  }

  const NO_KEYS := Order([], map[])

  /** `result.setdefault(section, {})` */
  function Defaulted(s: Store, root: nat, section: string): (after: Store)
    requires IsDict(s, Link(root))
    ensures Grown(s, after, root) && section in after[root].fields
  {
    if section in s[root].fields then s else PlaceAt(s, root, section, Obj(map[]), NO_KEYS)
  }

  function SectionInto(s: Store, root: nat, section: string, update: Json, order: Order): (after: Store)
    requires IsDict(s, Link(root)) && Ordered(update, order)
    ensures Grown(s, after, root)
  {
    var ready := Defaulted(s, root, section);
    var c := ready[root].fields[section];
    assert LaterNode(ready[root], root, |ready|);
    if IsDict(ready, c) && update.Obj? then MergeInto(ready, c.ref, update, order) else ready
  }

  function Step(s: Store, root: nat, evidence: Json, order: Order, section: string): (after: Store)
    requires IsDict(s, Link(root)) && Covers(evidence, order, [section])
    ensures Grown(s, after, root)
  {
    assert section in Elements([section]);
    if section == PROVENANCE then PlaceAt(s, root, section, evidence.fields[section], order.inner[section])
    else SectionInto(s, root, section, evidence.fields[section], order.inner[section])
  }

  function Steps(s: Store, root: nat, evidence: Json, order: Order, sections: seq<string>): (after: Store)
    requires IsDict(s, Link(root)) && Covers(evidence, order, sections)
    ensures Grown(s, after, root)
    decreases |sections|
  {
    if sections == [] then s
    else
      assert sections[0] in Elements(sections);
      assert Elements([sections[0]]) == {sections[0]};
      assert Elements(sections[1..]) <= Elements(sections);
      Steps(Step(s, root, evidence, order, sections[0]), root, evidence, order, sections[1..])
  }

  function Sealed(s: Store, root: nat): (after: Store)
    requires IsDict(s, Link(root))
    ensures Grown(s, after, root)
  {
    PlaceAt(PlaceAt(s, root, "status", Text("complete"), NO_KEYS), root, "unresolved", Items([]), NO_KEYS)
  }

  /** The heap after the lock was assembled; the lock is at the address of the template's copy. */
  function Assembled(s: Store, template: nat, evidence: Json, order: Order, sections: seq<string>): (after: Store)
    requires IsDict(s, Link(template)) && Covers(evidence, order, sections)
    ensures s <= after && IsDict(after, Link(template + |s|))
  {
    var root := template + |s|;
    var after := Sealed(Steps(Copied(s), root, evidence, order, sections), root);
    assert forall x | 0 <= x < |s| :: after[x] == s[x];
    after
  }

  // ----- without harmful sharing, the lock is the finalised value -----

  /** The root shows these values, except under the `free` keys. */
  ghost predicate RootShows(s: Store, root: nat, lock: Json, free: set<string>)
    requires IsDict(s, Link(root)) && lock.Obj?
  {
    && s[root].fields.Keys == lock.fields.Keys
    && forall k | k in lock.fields && k !in free :: In(s, s[root].fields[k]) && Read(s, s[root].fields[k]) == lock.fields[k]
  }

  ghost predicate Ready(s: Store, root: nat, live: set<string>, free: set<string>)
    requires IsDict(s, Link(root))
  {
    Apart(s, root, live, free) && live !! free && MERGED_SECTIONS !! free && PROVENANCE !in live
  }

  lemma PlacedShows(s: Store, root: nat, lock: Json, key: string, json: Json, order: Order, live: set<string>, free: set<string>)
    requires IsDict(s, Link(root)) && lock.Obj? && RootShows(s, root, lock, free)
    requires Apart(s, root, live, free) && live !! free && Ordered(json, order)
    ensures var after := PlaceAt(s, root, key, json, order);
            RootShows(after, root, With(lock, key, json), free - {key}) && Apart(after, root, live, free - {key})
  {
    hide Read, Parts, Writable, Unshared, PlaceAt;
    FieldPlaced(s, root, key, json, order, live, free);
    var after := PlaceAt(s, root, key, json, order);
    forall k | k in after[root].fields && k !in free - {key}
      ensures In(after, after[root].fields[k]) && Read(after, after[root].fields[k]) == With(lock, key, json).fields[k]
    {
      DictHolds(after, root, k);
    }
  }

  lemma SealedShows(s: Store, root: nat, lock: Json, live: set<string>, free: set<string>)
    requires IsDict(s, Link(root)) && lock.Obj? && RootShows(s, root, lock, free)
    requires Apart(s, root, live, free) && live !! free && free <= {"status", "unresolved"}
    ensures Read(Sealed(s, root), Link(root)) == With(With(lock, "status", Text("complete")), "unresolved", Items([]))
    ensures Apart(Sealed(s, root), root, live, {})
  {
    hide PlaceAt, Apart, With, RootShows;
    var once := PlaceAt(s, root, "status", Text("complete"), NO_KEYS);
    PlacedShows(s, root, lock, "status", Text("complete"), NO_KEYS, live, free);
    var first := With(lock, "status", Text("complete"));
    WithObj(lock, "status", Text("complete"));
    WithObj(first, "unresolved", Items([]));
    PlacedShows(once, root, first, "unresolved", Items([]), NO_KEYS, live, free - {"status"});
    RootIs(Sealed(s, root), root, With(first, "unresolved", Items([])), free - {"status"} - {"unresolved"});
  }

  lemma WithObj(target: Json, key: string, json: Json)
    requires target.Obj?
    ensures With(target, key, json).Obj?
  {
  }

  lemma RootIs(s: Store, root: nat, lock: Json, free: set<string>)
    requires IsDict(s, Link(root)) && lock.Obj? && RootShows(s, root, lock, free) && free == {}
    ensures Read(s, Link(root)) == lock
  {
    assert Read(s, Link(root)).fields == lock.fields;
  }

  lemma RootReads(s: Store, root: nat, free: set<string>)
    requires IsDict(s, Link(root))
    ensures Read(s, Link(root)).Obj? && RootShows(s, root, Read(s, Link(root)), free)
  {
    ReadKeys(s, root);
    forall k | k in s[root].fields ensures In(s, s[root].fields[k]) && Read(s, s[root].fields[k]) == Read(s, Link(root)).fields[k] {
      DictHolds(s, root, k);
    }
  }

  /** One section of the heap follows `Sections`. */
  lemma StepShows(s: Store, root: nat, lock: Json, evidence: Json, order: Order, section: string, live: set<string>, free: set<string>)
    requires IsDict(s, Link(root)) && lock.Obj? && RootShows(s, root, lock, free) && Ready(s, root, live, free)
    requires Covers(evidence, order, [section]) && section in live + {PROVENANCE}
    requires section != PROVENANCE ==> Mergeable(lock, evidence, section)
    ensures var after := Step(s, root, evidence, order, section);
            && RootShows(after, root, Sections(lock, evidence, {section}), free - {section})
            && Ready(after, root, live, free - {section})
  {
    hide PlaceAt, Apart, SectionInto, SectionOf;
    assert section in Elements([section]);
    var update, inner := evidence.fields[section], order.inner[section];
    if section == PROVENANCE {
      PlacedShows(s, root, lock, section, update, inner, live, free);
    } else {
      SectionShows(s, root, lock, evidence, section, inner, live, free);
      assert SectionInto(s, root, section, update, inner) == Step(s, root, evidence, order, section);
    }
    SectionsOne(lock, evidence, section);
    assert section !in free || section == PROVENANCE;
    assert section !in free ==> free - {section} == free;
  }

  lemma SectionsOne(lock: Json, evidence: Json, section: string)
    requires lock.Obj?
    ensures Sections(lock, evidence, {section})
            == With(lock, section, if section == PROVENANCE then Field(evidence, section) else SectionOf(lock, evidence, section))
  {
    assert Sections(lock, evidence, {section}).fields
           == With(lock, section, if section == PROVENANCE then Field(evidence, section) else SectionOf(lock, evidence, section)).fields;
  }

  lemma SectionShows(s: Store, root: nat, lock: Json, evidence: Json, section: string, order: Order, live: set<string>, free: set<string>)
    requires IsDict(s, Link(root)) && lock.Obj? && RootShows(s, root, lock, free)
    requires Apart(s, root, live, free) && live !! free && section in live
    requires Mergeable(lock, evidence, section) && Ordered(Field(evidence, section), order)
    ensures var after := SectionInto(s, root, section, Field(evidence, section), order);
            && RootShows(after, root, With(lock, section, SectionOf(lock, evidence, section)), free)
            && Apart(after, root, live, free)
  {
    hide Read, Apart, PlaceAt, RootShows, SectionOf, MergeInto, Mergeable, With;
    var update := Field(evidence, section);
    var ready := Defaulted(s, root, section);
    var first := DefaultedValue(lock, section);
    DefaultedShows(s, root, lock, section, live, free);
    SectionValue(lock, evidence, section);
    SectionCell(ready, root, first, section, free);
    var c := ready[root].fields[section];
    if IsDict(ready, c) {
      MergedSectionShows(ready, root, first, section, update, order, live, free);
    }
  }

  function DefaultedValue(lock: Json, section: string): (first: Json)
    requires lock.Obj?
    ensures first.Obj?
  {
    if section in lock.fields then lock else With(lock, section, Obj(map[]))
  }

  lemma SectionCell(s: Store, root: nat, lock: Json, section: string, free: set<string>)
    requires IsDict(s, Link(root)) && lock.Obj? && RootShows(s, root, lock, free) && section in s[root].fields && section !in free
    ensures section in lock.fields && In(s, s[root].fields[section])
    ensures lock.fields[section] == Read(s, s[root].fields[section])
  {
  }

  lemma DefaultedShows(s: Store, root: nat, lock: Json, section: string, live: set<string>, free: set<string>)
    requires IsDict(s, Link(root)) && lock.Obj? && RootShows(s, root, lock, free)
    requires Apart(s, root, live, free) && live !! free && section in live
    ensures var ready := Defaulted(s, root, section);
            RootShows(ready, root, DefaultedValue(lock, section), free) && Apart(ready, root, live, free)
  {
    hide Read, Apart, PlaceAt;
    if section !in s[root].fields {
      PlacedShows(s, root, lock, section, Obj(map[]), NO_KEYS, live, free);
      assert free - {section} == free;
    }
  }

  /** Merging into the section, created empty if it is missing, gives `SectionOf`. */
  lemma SectionValue(lock: Json, evidence: Json, section: string)
    requires lock.Obj? && Mergeable(lock, evidence, section)
    ensures var first, update := DefaultedValue(lock, section), Field(evidence, section);
            && first.Obj? && section in first.fields && update.Obj?
            && With(first, section, if first.fields[section].Obj? then Merge(first.fields[section], update) else first.fields[section])
               == With(lock, section, SectionOf(lock, evidence, section))
            && (!first.fields[section].Obj? ==> With(lock, section, SectionOf(lock, evidence, section)) == first)
  {
    var first, update := DefaultedValue(lock, section), Field(evidence, section);
    MergeIntoEmpty(update);
    var merged := if first.fields[section].Obj? then Merge(first.fields[section], update) else first.fields[section];
    assert first.fields[section := merged] == lock.fields[section := SectionOf(lock, evidence, section)];
    assert first.fields[section := first.fields[section]] == first.fields;
  }

  lemma MergedSectionShows(s: Store, root: nat, lock: Json, section: string, update: Json, order: Order, live: set<string>, free: set<string>)
    requires IsDict(s, Link(root)) && lock.Obj? && RootShows(s, root, lock, free)
    requires Apart(s, root, live, free) && live !! free && section in live && section in s[root].fields
    requires IsDict(s, s[root].fields[section]) && update.Obj? && Ordered(update, order)
    ensures section in lock.fields
    ensures var after := MergeInto(s, s[root].fields[section].ref, update, order);
            && IsDict(after, Link(root))
            && RootShows(after, root, With(lock, section, Merge(lock.fields[section], update)), free) && Apart(after, root, live, free)
  {
    hide Read, Parts, Writable, Unshared, MergeInto;
    FieldMerged(s, root, section, update, order, live, free);
    assert live + {section} == live && free - {section} == free;
    var after := MergeInto(s, s[root].fields[section].ref, update, order);
    var shown := With(lock, section, Merge(lock.fields[section], update));
    forall k | k in after[root].fields && k !in free
      ensures In(after, after[root].fields[k]) && Read(after, after[root].fields[k]) == shown.fields[k]
    {
      DictHolds(after, root, k);
    }
  }

  ghost predicate AllMergeable(lock: Json, evidence: Json, sections: seq<string>) {
    forall section | section in sections && section != PROVENANCE :: Mergeable(lock, evidence, section)
  }

  lemma {:induction false} StepsShow(s: Store, root: nat, lock: Json, evidence: Json, order: Order, sections: seq<string>,
                                     live: set<string>, free: set<string>)
    requires IsDict(s, Link(root)) && lock.Obj? && RootShows(s, root, lock, free) && Ready(s, root, live, free)
    requires Covers(evidence, order, sections) && Distinct(sections) && Elements(sections) <= live + {PROVENANCE}
    requires AllMergeable(lock, evidence, sections)
    ensures var after := Steps(s, root, evidence, order, sections);
            && RootShows(after, root, Sections(lock, evidence, Elements(sections)), free - Elements(sections))
            && Ready(after, root, live, free - Elements(sections))
    decreases |sections|
  {
    hide RootShows, Ready, Step, Mergeable, Sections;
    if sections == [] {
      SectionsNone(lock, evidence);
      assert free - Elements(sections) == free && Elements(sections) == {};
    } else {
      var section, rest := sections[0], sections[1..];
      assert section in Elements(sections) && Elements([section]) == {section};
      assert Elements(sections) == {section} + Elements(rest);
      StepShows(s, root, lock, evidence, order, section, live, free);
      var once := Sections(lock, evidence, {section});
      SectionsMore(lock, evidence, section, rest);
      StepsShow(Step(s, root, evidence, order, section), root, once, evidence, order, rest, live, free - {section});
      assert free - Elements(sections) == free - {section} - Elements(rest);
    }
  }

  lemma SectionsNone(lock: Json, evidence: Json)
    requires lock.Obj?
    ensures Sections(lock, evidence, {}) == lock
  {
    assert Sections(lock, evidence, {}).fields == lock.fields;
  }

  lemma SectionsMore(lock: Json, evidence: Json, section: string, rest: seq<string>)
    requires lock.Obj? && section !in rest
    ensures var once := Sections(lock, evidence, {section});
            && once.Obj?
            && Sections(once, evidence, Elements(rest)) == Sections(lock, evidence, {section} + Elements(rest))
            && (AllMergeable(lock, evidence, [section] + rest) ==> AllMergeable(once, evidence, rest))
  {
    var once := Sections(lock, evidence, {section});
    assert forall k :: k in rest ==> k in [section] + rest;
    assert Sections(once, evidence, Elements(rest)).fields == Sections(lock, evidence, {section} + Elements(rest)).fields;
  }

  lemma SectionsObj(lock: Json, evidence: Json, done: set<string>)
    requires lock.Obj?
    ensures Sections(lock, evidence, done).Obj?
  {
  }

  lemma CopyReady(s: Store, template: nat)
    requires IsDict(s, Link(template)) && Apart(s, template, MERGED_SECTIONS, REPLACED)
    ensures Read(s, Link(template)).Obj? && IsDict(Copied(s), Link(template + |s|))
    ensures RootShows(Copied(s), template + |s|, Read(s, Link(template)), REPLACED)
    ensures Ready(Copied(s), template + |s|, MERGED_SECTIONS, REPLACED)
  {
    hide Read, Apart, RootShows, Parts, Writable, Copied;
    CopyShows(s, Link(template));
    CopiedApart(s, template, MERGED_SECTIONS, REPLACED);
    LikeReads(s, Link(template), Copied(s), Link(template + |s|), |s|);
    RootReads(Copied(s), template + |s|, REPLACED);
  }

  /** Where nothing a merge writes to is reached in a second way, the assembled lock shows the finalised value. */
  lemma AssembledShows(s: Store, template: nat, evidence: Json, order: Order, sections: seq<string>)
    requires IsDict(s, Link(template)) && Apart(s, template, MERGED_SECTIONS, REPLACED)
    requires ListsSections(sections) && Covers(evidence, order, sections)
    requires AllMergeable(Read(s, Link(template)), evidence, sections)
    ensures Read(Assembled(s, template, evidence, order, sections), Link(template + |s|)) == Finalized(Read(s, Link(template)), evidence)
    ensures Apart(Assembled(s, template, evidence, order, sections), template + |s|, MERGED_SECTIONS, {})
  {
    hide Read, Apart, RootShows, Steps, Sealed, Sections, Copied, AllMergeable;
    var lock, root := Read(s, Link(template)), template + |s|;
    CopyReady(s, template);
    StepsShow(Copied(s), root, lock, evidence, order, sections, MERGED_SECTIONS, REPLACED);
    SectionsObj(lock, evidence, Elements(sections));
    SealedShows(Steps(Copied(s), root, evidence, order, sections), root, Sections(lock, evidence, Elements(sections)),
                MERGED_SECTIONS, REPLACED - Elements(sections));
  }

  // ----- with harmful sharing, it need not be -----

  /** Evidence that only repeats values a mapping already holds. */
  ghost predicate Repeats(s: Store, c: Cell, update: Json)
    requires IsDict(s, c)
  {
    update.Obj? && forall k | k in update.fields :: k in s[c.ref].fields && s[c.ref].fields[k] == Leaf(update.fields[k])
  }

  /** The section's evidence repeats the section, or is empty. */
  ghost predicate Quiet(s: Store, root: nat, evidence: Json, section: string)
    requires IsDict(s, Link(root))
  {
    section != PROVENANCE ==>
      && Field(evidence, section).Obj?
      && (Field(evidence, section).fields == map[]
          || (section in s[root].fields && IsDict(s, s[root].fields[section]) && Repeats(s, s[root].fields[section], Field(evidence, section))))
  }

  /** Nothing changed but the root, and there only the provenance and sections that were missing. */
  ghost predicate Undisturbed(s: Store, after: Store, root: nat)
    requires IsDict(s, Link(root)) && IsDict(after, Link(root))
  {
    && Untouched(s, after, root, {})
    && forall j | j in s[root].fields && j != PROVENANCE :: j in after[root].fields && after[root].fields[j] == s[root].fields[j]
  }

  lemma {:induction false} RepeatedMerge(s: Store, r: nat, update: Json, order: Order, n: nat)
    requires IsDict(s, Link(r)) && Ordered(update, order) && Repeats(s, Link(r), update) && n <= |order.keys|
    ensures MergeKeys(s, r, update, order, n) == s
    decreases n
  {
    if n > 0 {
      RepeatedMerge(s, r, update, order, n - 1);
      var key := order.keys[n - 1];
      assert key in Elements(order.keys);
      assert LaterNode(s[r], r, |s|);
      BindAgain(s, r, key);
      assert PlaceAt(s, r, key, update.fields[key], order.inner[key]) == Bind(s, r, key, s[r].fields[key]);
    }
  }

  lemma BindAgain(s: Store, r: nat, key: string)
    requires IsDict(s, Link(r)) && key in s[r].fields && Later(s[r].fields[key], r, |s|)
    ensures Bind(s, r, key, s[r].fields[key]) == s
  {
    assert s[r].fields[key := s[r].fields[key]] == s[r].fields;
    assert Bind(s, r, key, s[r].fields[key])[r] == s[r];
  }

  lemma EmptyPlaced(s: Store)
    ensures Place(s, Obj(map[]), NO_KEYS) == (Alloc(s), Link(|s|))
  {
    assert MergeKeys(Alloc(s), |s|, Obj(map[]), NO_KEYS, 0) == Alloc(s);
  }

  lemma QuietStep(s: Store, root: nat, evidence: Json, order: Order, section: string)
    requires IsDict(s, Link(root)) && Covers(evidence, order, [section]) && Quiet(s, root, evidence, section)
    ensures Undisturbed(s, Step(s, root, evidence, order, section), root)
  {
    assert section in Elements([section]);
    if section == PROVENANCE {
      var (placed, c) := Place(s, evidence.fields[section], order.inner[section]);
      assert forall x | 0 <= x < |s| :: placed[x] == s[x];
    } else {
      EmptyPlaced(s);
      var ready := Defaulted(s, root, section);
      assert LaterNode(ready[root], root, |ready|);
      if IsDict(ready, ready[root].fields[section]) {
        RepeatedMerge(ready, ready[root].fields[section].ref, evidence.fields[section], order.inner[section], |order.inner[section].keys|);
      }
    }
  }

  lemma StillQuiet(s: Store, after: Store, root: nat, evidence: Json, section: string)
    requires IsDict(s, Link(root)) && IsDict(after, Link(root)) && Undisturbed(s, after, root) && Quiet(s, root, evidence, section)
    ensures Quiet(after, root, evidence, section)
  {
    assert LaterNode(s[root], root, |s|);
  }

  lemma {:induction false} QuietSteps(s: Store, root: nat, evidence: Json, order: Order, sections: seq<string>)
    requires IsDict(s, Link(root)) && Covers(evidence, order, sections)
    requires forall section :: section in sections ==> Quiet(s, root, evidence, section)
    ensures Undisturbed(s, Steps(s, root, evidence, order, sections), root)
    decreases |sections|
  {
    hide Quiet, Step;
    if sections != [] {
      var section, rest := sections[0], sections[1..];
      assert section in Elements(sections) && Elements([section]) == {section} && Elements(rest) <= Elements(sections);
      QuietStep(s, root, evidence, order, section);
      var once := Step(s, root, evidence, order, section);
      forall k | k in rest ensures Quiet(once, root, evidence, k) {
        StillQuiet(s, once, root, evidence, k);
      }
      QuietSteps(once, root, evidence, order, rest);
    }
  }

  /** What a key shows before quiet sections, it shows in the lock. */
  lemma QuietlyKept(s: Store, root: nat, evidence: Json, order: Order, sections: seq<string>, j: string)
    requires IsDict(s, Link(root)) && Covers(evidence, order, sections)
    requires forall section :: section in sections ==> Quiet(s, root, evidence, section)
    requires j in s[root].fields && j !in REPLACED
    ensures In(s, s[root].fields[j])
    ensures var lock := Read(Sealed(Steps(s, root, evidence, order, sections), root), Link(root));
            lock.Obj? && j in lock.fields && lock.fields[j] == Read(s, s[root].fields[j])
  {
    hide Read, Parts, Writable, Unshared, Quiet, Steps;
    QuietSteps(s, root, evidence, order, sections);
    var merged := Steps(s, root, evidence, order, sections);
    var final := Sealed(merged, root);
    assert final[root].fields == merged[root].fields["status" := Leaf(Text("complete"))]["unresolved" := Leaf(Items([]))];
    DictHolds(s, root, j);
    Framed(s, final, s[root].fields[j]);
    DictHolds(final, root, j);
  }

  /** Evidence in which every section is empty, except one. */
  ghost function OnlyIn(keys: set<string>, section: string, update: Json): Json {
    Obj(map k | k in keys :: if k == section then update else Obj(map[]))
  }

  ghost function OnlyOrder(keys: seq<string>, section: string, order: Order): Order {
    Order(keys, map k | k in keys :: if k == section then order else NO_KEYS)
  }

  ghost function SectionFirst(keys: set<string>, section: string): seq<string> {
    [section] + Listing(keys - {section})
  }

  lemma SectionFirstLists(keys: set<string>, section: string)
    requires section in keys
    ensures Distinct(SectionFirst(keys, section)) && Elements(SectionFirst(keys, section)) == keys
    ensures SectionFirst(keys, section)[0] == section && section !in SectionFirst(keys, section)[1..]
  {
    var rest := Listing(keys - {section});
    ListingHolds(keys - {section});
    forall j | 1 <= j < |[section] + rest| ensures ([section] + rest)[j] == rest[j - 1] && rest[j - 1] in rest {
    }
    assert {section} + (keys - {section}) == keys;
  }

  lemma OnlyInCovers(keys: set<string>, listing: seq<string>, section: string, update: Json, order: Order)
    requires Distinct(listing) && Elements(listing) == keys && section in keys && update.Obj? && Ordered(update, order)
    ensures Covers(OnlyIn(keys, section, update), OnlyOrder(listing, section, order), listing)
    ensures OnlyIn(keys, section, update).fields.Keys == keys
    ensures forall k :: k in keys ==> Field(OnlyIn(keys, section, update), k) == if k == section then update else Obj(map[])
    ensures section in OnlyOrder(listing, section, order).inner && OnlyOrder(listing, section, order).inner[section] == order
  {
    EmptyOrdered();
    assert forall k :: k in keys ==> k in listing;
  }

  lemma EmptyOrdered()
    ensures Ordered(Obj(map[]), NO_KEYS)
  {
  }

  /** When only one section has evidence, the lock shows what merging that section left under every key. */
  lemma OneSectionShown(s: Store, root: nat, evidence: Json, order: Order, section: string, rest: seq<string>, j: string)
    requires IsDict(s, Link(root)) && Covers(evidence, order, [section] + rest)
    requires section != PROVENANCE && section in s[root].fields && section in order.inner
    requires IsDict(s, s[root].fields[section]) && Field(evidence, section).Obj? && Ordered(Field(evidence, section), order.inner[section])
    requires forall k :: k in rest ==> Field(evidence, k) == Obj(map[])
    requires j in s[root].fields && j !in REPLACED
    ensures var merged := MergeInto(s, s[root].fields[section].ref, Field(evidence, section), order.inner[section]);
            var lock := Read(Sealed(Steps(s, root, evidence, order, [section] + rest), root), Link(root));
            && In(merged, s[root].fields[j])
            && lock.Obj? && j in lock.fields && lock.fields[j] == Read(merged, s[root].fields[j])
  {
    hide Read, MergeInto, Sealed;
    assert LaterNode(s[root], root, |s|);
    var sections := [section] + rest;
    assert sections[1..] == rest;
    assert section in Elements(sections) && Elements([section]) == {section} && Elements(rest) <= Elements(sections);
    var merged := MergeInto(s, s[root].fields[section].ref, Field(evidence, section), order.inner[section]);
    assert Step(s, root, evidence, order, section) == merged;
    QuietlyKept(merged, root, evidence, order, rest, j);
  }

  lemma OnlyInFinalized(lock: Json, section: string, update: Json, j: string)
    requires lock.Obj? && section in MERGED_SECTIONS && Field(lock, section).Obj? && update.Obj? && j in lock.fields && j !in REPLACED
    ensures var evidence := OnlyIn(MERGED_SECTIONS + {PROVENANCE}, section, update);
            && (forall k :: k in MERGED_SECTIONS ==> Mergeable(lock, evidence, k))
            && Finalized(lock, evidence).Obj? && j in Finalized(lock, evidence).fields
            && Finalized(lock, evidence).fields[j] == if j == section then Merge(lock.fields[section], update) else lock.fields[j]
  {
    if lock.fields[j].Obj? {
      MergeNothing(lock.fields[j]);
    }
  }

  /** A write to a section that reaches what it should not. */
  lemma HarmfulWrite(s: Store, root: nat) returns (section: string, update: Json, order: Order, j: string)
    requires IsDict(s, Link(root)) && !Apart(s, root, MERGED_SECTIONS, REPLACED)
    ensures section in MERGED_SECTIONS && section in s[root].fields && IsDict(s, s[root].fields[section])
    ensures update.Obj? && Ordered(update, order) && j in s[root].fields && j !in REPLACED && In(s, s[root].fields[j])
    ensures var merged := MergeInto(s, s[root].fields[section].ref, update, order);
            In(merged, s[root].fields[j])
            && Read(merged, s[root].fields[j])
               != if j == section then Merge(Read(s, s[root].fields[section]), update) else Read(s, s[root].fields[j])
  {
    hide MergeInto, Unshared, Parts, Writable, Read;
    var fields := s[root].fields;
    assert LaterNode(s[root], root, |s|);
    section :| section in fields && section in MERGED_SECTIONS
               && (!Unshared(s, fields[section])
                   || exists j :: j in fields && j != section && j !in REPLACED && !(Writable(s, fields[section]) !! Parts(s, fields[j])));
    if !Unshared(s, fields[section]) {
      NotDict(s, fields[section]);
      update, order := SharedFails(s, fields[section].ref);
      j := section;
    } else {
      j :| j in fields && j != section && j !in REPLACED && !(Writable(s, fields[section]) !! Parts(s, fields[j]));
      var x :| x in Writable(s, fields[section]) && x in Parts(s, fields[j]);
      update, order := AimAside(s, root, section, j, x);
    }
  }

  /** Evidence for one section, listed first, and what the lock then shows under a key. */
  lemma OnlyStepsShown(s: Store, root: nat, keys: set<string>, section: string, update: Json, inner: Order, j: string)
      returns (order: Order, sections: seq<string>)
    requires IsDict(s, Link(root)) && section in keys && section != PROVENANCE
    requires section in s[root].fields && IsDict(s, s[root].fields[section]) && update.Obj? && Ordered(update, inner)
    requires j in s[root].fields && j !in REPLACED
    ensures Distinct(sections) && Elements(sections) == keys && Covers(OnlyIn(keys, section, update), order, sections)
    ensures var merged := MergeInto(s, s[root].fields[section].ref, update, inner);
            var lock := Read(Sealed(Steps(s, root, OnlyIn(keys, section, update), order, sections), root), Link(root));
            In(merged, s[root].fields[j]) && lock.Obj? && j in lock.fields && lock.fields[j] == Read(merged, s[root].fields[j])
  {
    hide Steps, Sealed, MergeInto, Unshared, Parts, Writable, Read, Covers, OnlyIn, OnlyOrder, SectionFirst;
    sections := SectionFirst(keys, section);
    SectionFirstLists(keys, section);
    order := OnlyOrder(sections, section, inner);
    OnlyInCovers(keys, sections, section, update, inner);
    assert sections == [section] + sections[1..];
    forall k | k in sections[1..] ensures Field(OnlyIn(keys, section, update), k) == Obj(map[]) {
      assert k in Elements(sections);
    }
    OneSectionShown(s, root, OnlyIn(keys, section, update), order, section, sections[1..], j);
  }

  lemma HarmfulSteps(s: Store, root: nat) returns (evidence: Json, order: Order, sections: seq<string>)
    requires IsDict(s, Link(root)) && !Apart(s, root, MERGED_SECTIONS, REPLACED)
    ensures ListsSections(sections) && Covers(evidence, order, sections) && AllMergeable(Read(s, Link(root)), evidence, sections)
    ensures Read(Sealed(Steps(s, root, evidence, order, sections), root), Link(root)) != Finalized(Read(s, Link(root)), evidence)
  {
    hide Apart, Steps, Sealed, MergeInto, Unshared, Parts, Writable, Read, Finalized, Covers, OnlyIn, Mergeable, AllMergeable;
    var section, update, inner, j := HarmfulWrite(s, root);
    var keys := MERGED_SECTIONS + {PROVENANCE};
    evidence := OnlyIn(keys, section, update);
    order, sections := OnlyStepsShown(s, root, keys, section, update, inner, j);
    DictHolds(s, root, section);
    DictHolds(s, root, j);
    OnlyInFinalized(Read(s, Link(root)), section, update, j);
    SectionsMergeable(Read(s, Link(root)), evidence, sections);
  }

  lemma HarmfulSharing(s: Store, template: nat) returns (evidence: Json, order: Order, sections: seq<string>)
    requires IsDict(s, Link(template)) && !Apart(s, template, MERGED_SECTIONS, REPLACED)
    ensures ListsSections(sections) && Covers(evidence, order, sections) && AllMergeable(Read(s, Link(template)), evidence, sections)
    ensures Read(Assembled(s, template, evidence, order, sections), Link(template + |s|)) != Finalized(Read(s, Link(template)), evidence)
  {
    hide Apart, Steps, Sealed, Unshared, Parts, Writable, Read, Finalized, Covers, Copied, AllMergeable;
    CopyShows(s, Link(template));
    CopiedApart(s, template, MERGED_SECTIONS, REPLACED);
    evidence, order, sections := HarmfulSteps(Copied(s), template + |s|);
  }

  lemma NotDict(s: Store, c: Cell)
    requires In(s, c) && !Unshared(s, c)
    ensures IsDict(s, c)
  {
  }

  /**
   The lock shows the finalised value for all evidence exactly when no mapping under a merged section
   is reached in a second way, except under a key that finalisation replaces.
   */
  lemma FinalizationExactly(s: Store, template: nat)
    requires IsDict(s, Link(template))
    ensures Apart(s, template, MERGED_SECTIONS, REPLACED) <==>
            forall evidence: Json, order: Order, sections: seq<string>
              | ListsSections(sections) && Covers(evidence, order, sections) && AllMergeable(Read(s, Link(template)), evidence, sections) ::
              Read(Assembled(s, template, evidence, order, sections), Link(template + |s|)) == Finalized(Read(s, Link(template)), evidence)
  {
    hide Apart, Assembled, Finalized, AllMergeable, Covers, ListsSections, Read, Parts, Writable;
    if Apart(s, template, MERGED_SECTIONS, REPLACED) {
      forall evidence: Json, order: Order, sections: seq<string>
        | ListsSections(sections) && Covers(evidence, order, sections) && AllMergeable(Read(s, Link(template)), evidence, sections)
        ensures Read(Assembled(s, template, evidence, order, sections), Link(template + |s|)) == Finalized(Read(s, Link(template)), evidence)
      {
        AssembledShows(s, template, evidence, order, sections);
      }
    } else {
      var evidence, order, sections := HarmfulSharing(s, template);
    }
  }

  // ----- accepting on the heap -----

  predicate EvidenceChecked(template: Json, evidence: Json, rules: FieldRules) {
    && StaticOk(template, rules)
    && evidence.Obj? && MERGED_SECTIONS + {PROVENANCE} <= evidence.fields.Keys
    && ClusterAgrees(template, evidence) && IdentityComplete(evidence)
    && ToolchainAgrees(template, evidence) && BaseImagesAgree(template, evidence)
  }

  /** What finalisation accepts: the checks look at what the template and the assembled lock show. */
  ghost predicate MayAssemble(s: Store, template: Cell, evidence: Json, order: Order, sections: seq<string>, rules: FieldRules)
    requires In(s, template) && Ordered(evidence, order) && ListsSections(sections)
  {
    && EvidenceChecked(Read(s, template), evidence, rules)
    && AllMergeable(Read(s, template), evidence, sections)
    && var lock := Read(Assembled(s, template.ref, evidence, order, sections), Link(template.ref + |s|));
    && rules.provenance(lock) && VersionOk(lock, rules)
  }

  // ----- what finalisation accepts, spelled out -----

  /** The shapes of a template or a lock. */
  predicate Shaped(lock: Json) {
    && lock.Obj? && Field(lock, "cluster").Obj? && Field(lock, "images").Obj? && Field(lock, "storage").Obj?
    && Field(Field(lock, "cluster"), "kubernetes_version").Text? && Field(Field(lock, "cluster"), "minikube_version").Text?
    && Field(Field(lock, "cluster"), "cni_version").Text? && Field(Field(lock, "cluster"), "driver").Text?
    && Field(Field(lock, "cluster"), "container_runtime").Text? && Field(Field(lock, "cluster"), "cni").Text?
    && {"mongo", "spark_base", "ui_base"} <= Field(lock, "images").fields.Keys
    && forall role :: role in Field(lock, "images").fields ==> Field(Field(lock, "images"), role).Obj?
  }

  lemma ShapedExactly(lock: Json)
    ensures StaticShape(lock) <==> Shaped(lock)
  {
    assert forall role :: role in BASE_ROLES <==> role in {"mongo", "spark_base", "ui_base"};
    assert TEXT_CHOICES[0] == "kubernetes_version" && TEXT_CHOICES[1] == "minikube_version" && TEXT_CHOICES[2] == "cni_version";
    assert TEXT_CHOICES[3] == "driver" && TEXT_CHOICES[4] == "container_runtime" && TEXT_CHOICES[5] == "cni";
    hide BASE_ROLES, TEXT_CHOICES;
  }

  /** The evidence observes the template's choice of this cluster field. */
  predicate Observes(template: Json, evidence: Json, f: string) {
    && Field(evidence, "cluster").Obj? && f in Field(evidence, "cluster").fields
    && Field(evidence, "cluster").fields[f] == Field(Field(template, "cluster"), f)
  }

  predicate ClusterObserved(template: Json, evidence: Json) {
    && Observes(template, evidence, "kubernetes_version") && Observes(template, evidence, "driver")
    && Observes(template, evidence, "container_runtime") && Observes(template, evidence, "cni")
    && Observes(template, evidence, "cni_version") && Observes(template, evidence, "node_count")
  }

  predicate Named(evidence: Json, f: string) {
    Field(Field(evidence, "cluster"), f).Text? && Field(Field(evidence, "cluster"), f).text != ""
  }

  predicate ClusterNamed(evidence: Json) {
    && Named(evidence, "profile") && Named(evidence, "context") && Named(evidence, "cluster_uid") && Named(evidence, "architecture")
    && Field(Field(evidence, "cluster"), "profile") == Field(Field(evidence, "cluster"), "context")
  }

  lemma ClusterExactly(template: Json, evidence: Json)
    ensures ClusterAgrees(template, evidence) <==> ClusterObserved(template, evidence)
  {
    assert PINNED_FIELDS[0] == "kubernetes_version" && PINNED_FIELDS[1] == "driver" && PINNED_FIELDS[2] == "container_runtime";
    assert PINNED_FIELDS[3] == "cni" && PINNED_FIELDS[4] == "cni_version" && PINNED_FIELDS[5] == "node_count" && |PINNED_FIELDS| == 6;
    hide PINNED_FIELDS, Field;
  }

  lemma IdentityExactly(evidence: Json)
    ensures IdentityComplete(evidence) <==> ClusterNamed(evidence)
  {
    assert IDENTITY_FIELDS[0] == "profile" && IDENTITY_FIELDS[1] == "context" && IDENTITY_FIELDS[2] == "cluster_uid";
    assert IDENTITY_FIELDS[3] == "architecture" && |IDENTITY_FIELDS| == 4;
    hide IDENTITY_FIELDS, Field;
  }

  predicate BaseObserved(template: Json, evidence: Json, role: string) {
    Field(evidence, "images").Obj?
    && (role in Field(evidence, "images").fields ==> Field(evidence, "images").fields[role] == Field(Field(template, "images"), role))
  }

  lemma ImagesExactly(template: Json, evidence: Json)
    ensures BaseImagesAgree(template, evidence) <==>
            BaseObserved(template, evidence, "mongo") && BaseObserved(template, evidence, "spark_base") && BaseObserved(template, evidence, "ui_base")
  {
    assert BASE_ROLES[0] == "mongo" && BASE_ROLES[1] == "spark_base" && BASE_ROLES[2] == "ui_base";
    hide BASE_ROLES;
  }

  /**
   The checks before the assembly accept exactly a well-shaped template, and evidence that has all seven sections,
   observes the template's cluster choices, names the cluster, has the template's Minikube in its toolchain, and
   repeats the template's base images where it mentions them.
   */
  lemma EvidenceCheckedExactly(template: Json, evidence: Json, rules: FieldRules)
    ensures EvidenceChecked(template, evidence, rules) <==>
            && Shaped(template) && rules.committed(template)
            && evidence.Obj?
            && {"cluster", "host_capacity", "images", "python_dependencies", "toolchain", "storage", "image_provenance"} <= evidence.fields.Keys
            && ClusterObserved(template, evidence) && ClusterNamed(evidence)
            && Field(evidence, "toolchain").Obj?
            && Field(Field(evidence, "toolchain"), "minikube_version") == Field(Field(template, "cluster"), "minikube_version")
            && BaseObserved(template, evidence, "mongo") && BaseObserved(template, evidence, "spark_base")
            && BaseObserved(template, evidence, "ui_base")
  {
    ShapedExactly(template);
    ClusterExactly(template, evidence);
    IdentityExactly(evidence);
    ImagesExactly(template, evidence);
    assert MERGED_SECTIONS + {PROVENANCE}
        == {"cluster", "host_capacity", "images", "python_dependencies", "toolchain", "storage", "image_provenance"};
    hide StaticShape, Shaped, ClusterAgrees, ClusterObserved, IdentityComplete, ClusterNamed, BaseImagesAgree, BaseObserved, MERGED_SECTIONS;
  }

  /** A lock that finalisation accepts counts its nodes, and its toolchain's Minikube is the cluster's. */
  lemma AcceptedLock(s: Store, template: nat, evidence: Json, order: Order, sections: seq<string>, rules: FieldRules)
    requires IsDict(s, Link(template)) && Covers(evidence, order, sections) && ListsSections(sections)
    requires MayAssemble(s, Link(template), evidence, order, sections, rules)
    ensures var lock := Read(Assembled(s, template, evidence, order, sections), Link(template + |s|));
            && Field(Field(lock, "cluster"), "node_count").Number? && Field(Field(lock, "cluster"), "node_count").number >= 1
            && Field(Field(lock, "toolchain"), "minikube_version") == Field(Field(lock, "cluster"), "minikube_version")
            && rules.provenance(lock) && rules.version(lock)
  {
    hide Assembled, Read, EvidenceChecked, AllMergeable, VersionOk;
    VersionMeans(Read(Assembled(s, template, evidence, order, sections), Link(template + |s|)), rules);
  }

  lemma VersionMeans(lock: Json, rules: FieldRules)
    requires VersionOk(lock, rules)
    ensures Field(Field(lock, "cluster"), "node_count").Number? && Field(Field(lock, "cluster"), "node_count").number >= 1
    ensures Field(Field(lock, "toolchain"), "minikube_version") == Field(Field(lock, "cluster"), "minikube_version")
    ensures rules.version(lock)
  {
  }

  /** Without harmful sharing, finalisation on the heap is finalisation of the value. */
  lemma FinalizesTheValue(s: Store, template: Cell, evidence: Json, order: Order, sections: seq<string>, rules: FieldRules)
    requires In(s, template) && Ordered(evidence, order) && ListsSections(sections)
    requires IsDict(s, template) ==> Apart(s, template.ref, MERGED_SECTIONS, REPLACED)
    ensures MayAssemble(s, template, evidence, order, sections, rules) <==> MayFinalize(Read(s, template), evidence, rules)
    ensures MayAssemble(s, template, evidence, order, sections, rules) ==>
              Read(Assembled(s, template.ref, evidence, order, sections), Link(template.ref + |s|)) == Finalized(Read(s, template), evidence)
  {
    hide Apart, Assembled, Finalized, Read, Mergeable, StaticShape, VersionOk, ClusterAgrees, IdentityComplete, ToolchainAgrees, BaseImagesAgree;
    if EvidenceChecked(Read(s, template), evidence, rules) {
      CheckedShapes(Read(s, template), evidence, rules);
      assert forall section :: section in MERGED_SECTIONS ==> section in Elements(sections);
      if AllMergeable(Read(s, template), evidence, sections) {
        AssembledShows(s, template.ref, evidence, order, sections);
      }
    }
  }

  /** So the lock of a template without harmful sharing keeps the pinned choices. */
  lemma ChoicesPinned(s: Store, template: nat, evidence: Json, order: Order, sections: seq<string>, rules: FieldRules)
    requires IsDict(s, Link(template)) && Apart(s, template, MERGED_SECTIONS, REPLACED)
    requires Covers(evidence, order, sections) && ListsSections(sections)
    requires MayAssemble(s, Link(template), evidence, order, sections, rules)
    ensures var lock, chosen := Read(Assembled(s, template, evidence, order, sections), Link(template + |s|)), Read(s, Link(template));
            && (forall f :: f in {"kubernetes_version", "driver", "container_runtime", "cni", "cni_version", "node_count", "minikube_version"} ==>
                  Field(Field(lock, "cluster"), f) == Field(Field(chosen, "cluster"), f))
            && (forall role :: role in {"mongo", "spark_base", "ui_base"} ==>
                  Field(Field(lock, "images"), role) == Field(Field(chosen, "images"), role))
            && Field(lock, "status") == Text("complete") && Field(lock, "unresolved") == Items([])
            && Field(lock, "image_provenance") == Field(evidence, "image_provenance")
  {
    hide Apart, Assembled, Finalized, Read, EvidenceChecked, MayAssemble, MayFinalize;
    FinalizesTheValue(s, Link(template), evidence, order, sections, rules);
    StaticChoicesPinned(Read(s, Link(template)), evidence, rules);
  }

  lemma ApartStays(s: Store, r: nat, live: set<string>, free: set<string>, more: set<string>)
    requires IsDict(s, Link(r)) && Apart(s, r, live, free) && free <= more
    ensures Apart(s, r, live, more)
  {
    hide Unshared, Parts, Writable;
  }

  /** A lock without harmful sharing, which finalising with this evidence shows again, and accepts if it is statically valid. */
  ghost predicate Settled(s: Store, root: nat, evidence: Json, order: Order, sections: seq<string>, rules: FieldRules)
    requires IsDict(s, Link(root)) && Covers(evidence, order, sections) && ListsSections(sections)
  {
    && Apart(s, root, MERGED_SECTIONS, REPLACED)
    && Read(Assembled(s, root, evidence, order, sections), Link(root + |s|)) == Read(s, Link(root))
    && (MayAssemble(s, Link(root), evidence, order, sections, rules) <==> StaticOk(Read(s, Link(root)), rules))
  }

  /**
   The lock of such a template is one again. Finalising it on the heap with the same evidence, however that
   and the sections are listed, shows the same lock, and is accepted exactly when the lock passes the static rules.
   */
  lemma FinalizingAgainOnHeap(s: Store, template: nat, evidence: Json, order: Order, sections: seq<string>, rules: FieldRules,
                              again: Order, relisted: seq<string>)
    requires IsDict(s, Link(template)) && Apart(s, template, MERGED_SECTIONS, REPLACED)
    requires Covers(evidence, order, sections) && ListsSections(sections) && Covers(evidence, again, relisted) && ListsSections(relisted)
    requires MayAssemble(s, Link(template), evidence, order, sections, rules)
    ensures Settled(Assembled(s, template, evidence, order, sections), template + |s|, evidence, again, relisted, rules)
  {
    hide Apart, Assembled, Finalized, Read, EvidenceChecked, MayAssemble, MayFinalize, StaticOk, Settled, AllMergeable;
    var chosen, t, root := Read(s, Link(template)), Assembled(s, template, evidence, order, sections), template + |s|;
    FinalizesTheValue(s, Link(template), evidence, order, sections, rules);
    FinalizingAgain(chosen, evidence, rules);
    AcceptedMergeable(s, template, evidence, order, sections, rules);
    AssembledApart(s, template, evidence, order, sections);
    AgainMergeable(chosen, evidence, relisted, rules);
    var lock := Finalized(chosen, evidence);
    assert IsDict(t, Link(root)) && Read(t, Link(root)) == lock;
    assert lock.Obj? && Finalized(lock, evidence) == lock && (MayFinalize(lock, evidence, rules) <==> StaticOk(lock, rules));
    SettledHolds(t, root, lock, evidence, again, relisted, rules);
  }

  lemma SettledHolds(s: Store, root: nat, lock: Json, evidence: Json, order: Order, sections: seq<string>, rules: FieldRules)
    requires IsDict(s, Link(root)) && Covers(evidence, order, sections) && ListsSections(sections)
    requires Apart(s, root, MERGED_SECTIONS, REPLACED) && Read(s, Link(root)) == lock && AllMergeable(lock, evidence, sections)
    requires lock.Obj? && Finalized(lock, evidence) == lock && (MayFinalize(lock, evidence, rules) <==> StaticOk(lock, rules))
    ensures Settled(s, root, evidence, order, sections, rules)
  {
    hide Apart, Assembled, Finalized, Read, EvidenceChecked, MayAssemble, MayFinalize, StaticOk, AllMergeable;
    FinalizesTheValue(s, Link(root), evidence, order, sections, rules);
    AssembledShows(s, root, evidence, order, sections);
  }

  lemma AcceptedMergeable(s: Store, template: nat, evidence: Json, order: Order, sections: seq<string>, rules: FieldRules)
    requires IsDict(s, Link(template)) && Covers(evidence, order, sections) && ListsSections(sections)
    requires MayAssemble(s, Link(template), evidence, order, sections, rules)
    ensures AllMergeable(Read(s, Link(template)), evidence, sections)
  {
    hide Assembled, Read, EvidenceChecked, AllMergeable, VersionOk;
  }

  lemma AssembledApart(s: Store, template: nat, evidence: Json, order: Order, sections: seq<string>)
    requires IsDict(s, Link(template)) && Apart(s, template, MERGED_SECTIONS, REPLACED)
    requires Covers(evidence, order, sections) && ListsSections(sections)
    requires AllMergeable(Read(s, Link(template)), evidence, sections)
    ensures Apart(Assembled(s, template, evidence, order, sections), template + |s|, MERGED_SECTIONS, REPLACED)
  {
    hide Apart, Assembled, Finalized, Read, AllMergeable;
    AssembledShows(s, template, evidence, order, sections);
    ApartStays(Assembled(s, template, evidence, order, sections), template + |s|, MERGED_SECTIONS, {}, REPLACED);
  }

  lemma AgainMergeable(template: Json, evidence: Json, sections: seq<string>, rules: FieldRules)
    requires MayFinalize(template, evidence, rules) && ListsSections(sections)
    ensures AllMergeable(Finalized(template, evidence), evidence, sections)
  {
    hide Finalized, SectionOf;
    forall section | section in sections && section != PROVENANCE ensures Mergeable(Finalized(template, evidence), evidence, section) {
      assert section in Elements(sections);
      FinalizedFields(template, evidence, section);
      SectionMergeable(template, evidence, section);
    }
  }

  lemma SectionMergeable(template: Json, evidence: Json, section: string)
    requires Mergeable(template, evidence, section)
    ensures !SectionOf(template, evidence, section).Obj? ==> Field(evidence, section).fields == map[]
  {
  }

  /** Every value can be listed in some order. */
  lemma {:induction false} SomeOrder(json: Json) returns (order: Order)
    ensures Ordered(json, order)
    decreases json
  {
    if json.Obj? {
      var keys := Listing(json.fields.Keys);
      ListingHolds(json.fields.Keys);
      forall k | k in json.fields ensures exists o :: Ordered(json.fields[k], o) {
        var o := SomeOrder(json.fields[k]);
      }
      order := Order(keys, map k | k in json.fields :: ChosenOrder(json.fields[k]));
      assert Elements(keys) == json.fields.Keys;
    } else {
      order := NO_KEYS;
    }
  }

  ghost function ChosenOrder(json: Json): (order: Order)
    requires exists o :: Ordered(json, o)
    ensures Ordered(json, order)
  {
    var o :| Ordered(json, o);
    o
  }

  lemma SectionsMergeable(lock: Json, evidence: Json, sections: seq<string>)
    requires ListsSections(sections) && forall k :: k in MERGED_SECTIONS ==> Mergeable(lock, evidence, k)
    ensures AllMergeable(lock, evidence, sections)
  {
    hide Mergeable;
    assert forall k :: k in sections ==> k in Elements(sections);
  }

  // ----- the methods -----

  method CheckEvidence(template: Json, evidence: Json, rules: FieldRules) returns (refusal: Option<LockError>)
    ensures refusal == None <==> EvidenceChecked(template, evidence, rules)
  {
    if !StaticOk(template, rules) {
      return Some(StaticInvalid);
    }
    if !evidence.Obj? {
      return Some(EvidenceShape);
    }
    if !(MERGED_SECTIONS + {PROVENANCE} <= evidence.fields.Keys) {
      return Some(SectionsMissing);
    }
    var observed := Field(evidence, "cluster");
    if !observed.Obj? {
      return Some(EvidenceShape);
    }
    for i := 0 to |PINNED_FIELDS|
      invariant forall j :: 0 <= j < i ==>
        PINNED_FIELDS[j] in observed.fields && observed.fields[PINNED_FIELDS[j]] == Field(Field(template, "cluster"), PINNED_FIELDS[j])
    {
      var f := PINNED_FIELDS[i];
      if f !in observed.fields || observed.fields[f] != Field(Field(template, "cluster"), f) {
        assert f in PINNED_FIELDS;
        return Some(ClusterMismatch);
      }
    }
    if !IdentityComplete(evidence) {
      return Some(IdentityIncomplete);
    }
    if !ToolchainAgrees(template, evidence) {
      return Some(ToolchainMismatch);
    }
    var images := Field(evidence, "images");
    if !images.Obj? {
      return Some(EvidenceShape);
    }
    for i := 0 to |BASE_ROLES|
      invariant forall j :: 0 <= j < i ==> BASE_ROLES[j] in images.fields ==>
        images.fields[BASE_ROLES[j]] == Field(Field(template, "images"), BASE_ROLES[j])
    {
      var role := BASE_ROLES[i];
      if role in images.fields && images.fields[role] != Field(Field(template, "images"), role) {
        assert role in BASE_ROLES;
        return Some(BaseImageMismatch);
      }
    }
    return None;
  }


  /** `Mergeable`, asked of the heap. */
  ghost predicate MergeableHere(s: Store, root: nat, evidence: Json, section: string)
    requires IsDict(s, Link(root))
  {
    var update, fields := Field(evidence, section), s[root].fields;
    update.Obj? && (section in fields && !IsDict(s, fields[section]) ==> update.fields == map[])
  }

  /** Nothing happened to what is under this key of the root. */
  ghost predicate SameCell(s: Store, after: Store, root: nat, section: string)
    requires IsDict(s, Link(root)) && IsDict(after, Link(root))
  {
    && (section in after[root].fields <==> section in s[root].fields)
    && (section in s[root].fields ==>
          after[root].fields[section] == s[root].fields[section]
          && (IsDict(after, s[root].fields[section]) <==> IsDict(s, s[root].fields[section])))
  }

  lemma HereIsMergeable(s: Store, root: nat, evidence: Json, section: string)
    requires IsDict(s, Link(root))
    ensures MergeableHere(s, root, evidence, section) <==> Mergeable(Read(s, Link(root)), evidence, section)
  {
    hide Read;
    ReadKeys(s, root);
    if section in s[root].fields {
      DictHolds(s, root, section);
    }
  }

  /** A step changes one key of the root. */
  lemma StepKeepsCells(s: Store, root: nat, evidence: Json, order: Order, section: string, other: string)
    requires IsDict(s, Link(root)) && Covers(evidence, order, [section]) && other != section
    ensures SameCell(s, Step(s, root, evidence, order, section), root, other)
  {
    assert section in Elements([section]);
    assert LaterNode(s[root], root, |s|);
    var ready := Defaulted(s, root, section);
    assert LaterNode(ready[root], root, |ready|);
  }

  /** Creates the section if it is missing and merges the evidence into it in place. */
  method MergeSection(heap: ObjectHeap, root: nat, evidence: Json, section: string, order: Order) returns (ok: bool)
    requires IsDict(heap.store, Link(root)) && Ordered(Field(evidence, section), order)
    modifies heap
    ensures heap.store == SectionInto(old(heap.store), root, section, Field(evidence, section), order)
    ensures ok <==> MergeableHere(old(heap.store), root, evidence, section)
  {
    var update := Field(evidence, section);
    EmptyPlaced(heap.store);
    if section !in heap.store[root].fields {
      var empty := Link(|heap.store|);
      heap.store := Alloc(heap.store);
      heap.store := Bind(heap.store, root, section, empty);
    }
    assert LaterNode(heap.store[root], root, |heap.store|);
    var c := heap.store[root].fields[section];
    if !update.Obj? {
      return false;
    }
    if !IsDict(heap.store, c) {
      return update.fields == map[];
    }
    heap.MergeMapping(c.ref, update, order);
    return true;
  }

  /** One pass of the loop over the required sections. */
  method AddSection(heap: ObjectHeap, root: nat, evidence: Json, order: Order, section: string) returns (ok: bool)
    requires IsDict(heap.store, Link(root)) && Covers(evidence, order, [section])
    modifies heap
    ensures heap.store == Step(old(heap.store), root, evidence, order, section)
    ensures ok <==> section == PROVENANCE || MergeableHere(old(heap.store), root, evidence, section)
  {
    assert section in Elements([section]);
    if section == PROVENANCE {
      var c := heap.DeepCopy(evidence.fields[section], order.inner[section]);
      heap.store := Bind(heap.store, root, section, c);
      ok := true;
    } else {
      ok := MergeSection(heap, root, evidence, section, order.inner[section]);
    }
  }

  lemma NextSection(evidence: Json, order: Order, sections: seq<string>, i: nat)
    requires Covers(evidence, order, sections[..]) && i < |sections|
    ensures Covers(evidence, order, sections[i..]) && Covers(evidence, order, sections[i + 1..]) && Covers(evidence, order, [sections[i]])
    ensures sections[i..][0] == sections[i] && sections[i..][1..] == sections[i + 1..]
  {
    assert sections[..] == sections;
    assert sections[i] in Elements(sections) && Elements([sections[i]]) == {sections[i]};
  }

  /** The loop over the required sections: all are added, or one cannot be merged. */
  method AddSections(heap: ObjectHeap, root: nat, evidence: Json, order: Order, sections: seq<string>) returns (ok: bool)
    requires IsDict(heap.store, Link(root)) && Covers(evidence, order, sections) && Distinct(sections)
    modifies heap
    ensures Grown(old(heap.store), heap.store, root)
    ensures ok <==> AllMergeable(Read(old(heap.store), Link(root)), evidence, sections)
    ensures ok ==> heap.store == Steps(old(heap.store), root, evidence, order, sections)
  {
    hide Step, Read, Mergeable, Covers, Apart;
    ghost var first := heap.store;
    assert sections[0..] == sections;
    for i := 0 to |sections|
      invariant Grown(first, heap.store, root) && IsDict(heap.store, Link(root)) && Covers(evidence, order, sections[i..])
      invariant Steps(heap.store, root, evidence, order, sections[i..]) == Steps(first, root, evidence, order, sections)
      invariant forall j :: i <= j < |sections| ==> SameCell(first, heap.store, root, sections[j])
      invariant forall j :: 0 <= j < i && sections[j] != PROVENANCE ==> Mergeable(Read(first, Link(root)), evidence, sections[j])
    {
      ghost var before := heap.store;
      NextSection(evidence, order, sections, i);
      HereIsMergeable(first, root, evidence, sections[i]);
      ok := AddSection(heap, root, evidence, order, sections[i]);
      if !ok {
        return false;
      }
      forall j | i < j < |sections| ensures SameCell(first, heap.store, root, sections[j]) {
        StepKeepsCells(before, root, evidence, order, sections[i], sections[j]);
      }
    }
    assert sections[|sections|..] == [];
    ok := true;
  }

  lemma CheckedShapes(template: Json, evidence: Json, rules: FieldRules)
    requires EvidenceChecked(template, evidence, rules)
    ensures template.Obj? && evidence.Obj? && MERGED_SECTIONS + {PROVENANCE} <= evidence.fields.Keys
  {
  }

  /** The deep copy, the sections and the two fields that close the lock. */
  method Assemble(heap: ObjectHeap, template: nat, evidence: Json, order: Order, sections: seq<string>) returns (ok: bool, root: nat)
    requires IsDict(heap.store, Link(template)) && Covers(evidence, order, sections) && Distinct(sections)
    modifies heap
    ensures old(heap.store) <= heap.store && root == template + |old(heap.store)|
    ensures ok <==> AllMergeable(Read(old(heap.store), Link(template)), evidence, sections)
    ensures ok ==> heap.store == Assembled(old(heap.store), template, evidence, order, sections)
  {
    hide Read, Steps, Copied, AllMergeable, Covers, Apart, Parts, Writable, Unshared;
    root := template + |heap.store|;
    CopyShows(heap.store, Link(template));
    heap.store := Copied(heap.store);
    ok := AddSections(heap, root, evidence, order, sections);
    if ok {
      heap.store := Bind(heap.store, root, "status", Leaf(Text("complete")));
      heap.store := Bind(heap.store, root, "unresolved", Leaf(Items([])));
    }
  }

  /**
   Finalisation reads the template and changes only what it made itself: everything that was on the heap
   before is as it was, and the lock is at a new address.
   */
  method FinalizeVersionLock(heap: ObjectHeap, template: Cell, evidence: Json, order: Order, sections: seq<string>, rules: FieldRules)
      returns (r: Result<nat, LockError>)
    requires In(heap.store, template) && Ordered(evidence, order) && ListsSections(sections)
    modifies heap
    ensures old(heap.store) <= heap.store
    ensures r.Success? <==> MayAssemble(old(heap.store), template, evidence, order, sections, rules)
    ensures r.Success? ==>
              && heap.store == Assembled(old(heap.store), template.ref, evidence, order, sections)
              && r.value == template.ref + |old(heap.store)|
  {
    hide Read, Assembled, Copied, AllMergeable, EvidenceChecked, VersionOk, Apart;
    var refusal := CheckEvidence(Read(heap.store, template), evidence, rules);
    if refusal.Some? {
      return Failure(refusal.value);
    }
    CheckedShapes(Read(heap.store, template), evidence, rules);
    var ok, root := Assemble(heap, template.ref, evidence, order, sections);
    if !ok {
      return Failure(SectionShape);
    }
    var lock := Read(heap.store, Link(root));
    if !rules.provenance(lock) {
      return Failure(ProvenanceInvalid);
    }
    if !VersionOk(lock, rules) {
      return Failure(VersionInvalid);
    }
    r := Success(root);
  }
}
