/**
 What accepted finalisations keep of a template whose mappings are shared (scripts/k8s/lock_lifecycle.py). The
 checks of the evidence leave some keys no choice; a mapping that other keys lead to is exposed. Base images,
 pinned choices and keys that are not merged are kept by every accepted finalisation exactly when nothing they
 consist of is exposed.
 */
module SharedTemplates {
  import opened Wrappers
  import opened Collections
  import opened JsonValues
  import opened SharedMappings
  import opened LockFinalization

  // ----- what accepted evidence can write to -----

  /** Keys whose value accepted evidence must take from the template. */
  predicate Fixed(section: string, key: string) {
    (section == "images" && key in BASE_ROLES) || (section == "cluster" && key in PINNED_FIELDS)
  }

  /** Keys for which accepted evidence has no mapping of its own: fixed ones, and those that must be text. */
  predicate Held(section: string, key: string) {
    Fixed(section, key) || (section == "cluster" && key in IDENTITY_FIELDS) || (section == "toolchain" && key == "minikube_version")
  }

  ghost predicate SectionAt(s: Store, root: nat, section: string, n: nat)
    requires IsDict(s, Link(root))
  {
    section in MERGED_SECTIONS && section in s[root].fields && s[root].fields[section] == Link(n) && IsDict(s, Link(n))
  }

  ghost predicate BelowAt(s: Store, root: nat, section: string, n: nat, k: string, x: nat)
    requires IsDict(s, Link(root))
  {
    SectionAt(s, root, section, n) && k in s[n].fields && !Held(section, k) && In(s, s[n].fields[k]) && x in Writable(s, s[n].fields[k])
  }

  /** Reached by keys below a section, through none that is held: accepted evidence may have anything there. */
  ghost predicate Open(s: Store, root: nat, x: nat)
    requires IsDict(s, Link(root))
  {
    exists section, n: nat, k :: BelowAt(s, root, section, n, k, x)
  }

  /** Accepted evidence can change the mapping. */
  ghost predicate Exposed(s: Store, root: nat, x: nat)
    requires IsDict(s, Link(root))
  {
    Open(s, root, x) || exists section :: SectionAt(s, root, section, x)
  }

  lemma ExposedAfterRoot(s: Store, root: nat, x: nat)
    requires IsDict(s, Link(root)) && Exposed(s, root, x)
    ensures root < x < |s| && s[x].Dict?
  {
    assert LaterNode(s[root], root, |s|);
    if Open(s, root, x) {
      var section, n: nat, k :| BelowAt(s, root, section, n, k, x);
      assert LaterNode(s[n], n, |s|);
    }
  }

  /** What is open stays open further down. */
  lemma OpenChild(s: Store, root: nat, x: nat, k: string)
    requires IsDict(s, Link(root)) && Open(s, root, x) && IsDict(s, Link(x)) && k in s[x].fields && IsDict(s, s[x].fields[k])
    ensures Open(s, root, s[x].fields[k].ref)
  {
    var section, n: nat, j :| BelowAt(s, root, section, n, j, x);
    WritableChild(s, s[n].fields[j], x, k);
    assert BelowAt(s, root, section, n, j, s[x].fields[k].ref);
  }

  lemma {:induction false} WritableChild(s: Store, c: Cell, x: nat, k: string)
    requires In(s, c) && x in Writable(s, c) && IsDict(s, Link(x)) && k in s[x].fields && IsDict(s, s[x].fields[k])
    ensures s[x].fields[k].ref in Writable(s, c)
    decreases Height(s, c)
  {
    if c.ref == x {
      DictHolds(s, x, k);
      OwnPart(s, s[x].fields[k]);
    } else {
      var j :| j in s[c.ref].fields && x in Writable(s, s[c.ref].fields[j]);
      DictHolds(s, c.ref, j);
      WritableChild(s, s[c.ref].fields[j], x, k);
    }
  }

  // ----- what every accepted finalisation leaves alone -----

  datatype Slot = Slot(node: nat, key: string)

  /** A fixed key of a section whose mapping accepted evidence reaches in no other way. */
  ghost predicate Guarded(s: Store, root: nat, section: string, slot: Slot)
    requires IsDict(s, Link(root))
  {
    && SectionAt(s, root, section, slot.node) && Fixed(section, slot.key) && slot.key in s[slot.node].fields
    && !Open(s, root, slot.node)
    && forall other :: other != section ==> !SectionAt(s, root, other, slot.node)
  }

  ghost predicate Protected(s: Store, root: nat, slot: Slot, x: nat, k: string)
    requires IsDict(s, Link(root))
  {
    x != root && (!Exposed(s, root, x) || Slot(x, k) == slot)
  }

  /** The cell is the same, or holds a copy of what it showed, which was no mapping. */
  ghost predicate CellKept(s: Store, after: Store, x: nat, k: string)
    requires IsDict(s, Link(x)) && IsDict(after, Link(x))
  {
    && k in s[x].fields && k in after[x].fields
    && (after[x].fields[k] == s[x].fields[k]
        || (In(s, s[x].fields[k]) && !IsDict(s, s[x].fields[k]) && after[x].fields[k] == Leaf(Read(s, s[x].fields[k]))))
  }

  /** No link to a node that was there leads from anywhere new. */
  ghost predicate EdgesOnlyLost(s: Store, root: nat, after: Store) {
    && |s| <= |after|
    && (forall x: nat | x < |s| :: s[x].Dict? == after[x].Dict? && (s[x].List? ==> after[x] == s[x]))
    && forall x: nat, k | x < |s| && x != root && s[x].Dict? && after[x].Dict? && k in after[x].fields ::
         var c := after[x].fields[k];
         c.Link? && c.ref < |s| ==> k in s[x].fields && s[x].fields[k] == c
  }

  ghost predicate RootKept(s: Store, root: nat, after: Store)
    requires IsDict(s, Link(root)) && IsDict(after, Link(root))
  {
    && (forall j | j in s[root].fields && j !in REPLACED :: j in after[root].fields && after[root].fields[j] == s[root].fields[j])
    && (forall j | j in after[root].fields && j !in s[root].fields :: after[root].fields[j].Link? ==> after[root].fields[j].ref >= |s|)
  }

  ghost predicate SlotsKept(s: Store, root: nat, slot: Slot, after: Store)
    requires IsDict(s, Link(root))
  {
    forall x: nat, k | x < |s| && IsDict(s, Link(x)) && IsDict(after, Link(x)) && Protected(s, root, slot, x, k) ::
      (k in s[x].fields || k in after[x].fields) ==> CellKept(s, after, x, k)
  }

  ghost predicate Steady(s: Store, root: nat, slot: Slot, after: Store)
    requires IsDict(s, Link(root))
  {
    EdgesOnlyLost(s, root, after) && IsDict(after, Link(root)) && RootKept(s, root, after) && SlotsKept(s, root, slot, after)
  }

  /** A write to what is new or open, of something that is new. */
  lemma WriteOpen(s: Store, root: nat, slot: Slot, now: Store, x: nat, k: string, c: Cell)
    requires IsDict(s, Link(root)) && Steady(s, root, slot, now)
    requires IsDict(now, Link(x)) && x != root && Later(c, x, |now|) && (c.Link? ==> c.ref >= |s|)
    requires x < |s| ==> !Protected(s, root, slot, x, k)
    ensures Steady(s, root, slot, Bind(now, x, k, c))
  {
    hide Protected, Exposed;
  }

  /** A write of what the cell showed at first. */
  lemma WriteSame(s: Store, root: nat, slot: Slot, now: Store, x: nat, k: string)
    requires IsDict(s, Link(root)) && Steady(s, root, slot, now)
    requires x < |s| && x != root && IsDict(s, Link(x)) && k in s[x].fields && In(s, s[x].fields[k]) && !IsDict(s, s[x].fields[k])
    ensures IsDict(now, Link(x)) && Steady(s, root, slot, Bind(now, x, k, Leaf(Read(s, s[x].fields[k]))))
  {
    hide Protected, Exposed, Read, SlotsKept, RootKept;
    ReadShape(s, s[x].fields[k]);
    var after := Bind(now, x, k, Leaf(Read(s, s[x].fields[k])));
    assert RootKept(s, root, after) by {
      SameRoot(s, root, now, after);
    }
    SameSlots(s, root, slot, now, x, k, Leaf(Read(s, s[x].fields[k])));
  }

  lemma SameRoot(s: Store, root: nat, now: Store, after: Store)
    requires IsDict(s, Link(root)) && IsDict(now, Link(root)) && RootKept(s, root, now) && root < |after| && after[root] == now[root]
    ensures RootKept(s, root, after)
  {
  }

  lemma SameSlots(s: Store, root: nat, slot: Slot, now: Store, x: nat, k: string, c: Cell)
    requires IsDict(s, Link(root)) && SlotsKept(s, root, slot, now)
    requires x < |s| && IsDict(s, Link(x)) && IsDict(now, Link(x)) && Later(c, x, |now|) && k in s[x].fields
    requires In(s, s[x].fields[k]) && !IsDict(s, s[x].fields[k]) && c == Leaf(Read(s, s[x].fields[k]))
    ensures SlotsKept(s, root, slot, Bind(now, x, k, c))
  {
    hide Protected, Read, Later;
  }

  lemma ReadShape(s: Store, c: Cell)
    requires In(s, c)
    ensures Read(s, c).Obj? <==> IsDict(s, c)
  {
  }

  lemma WriteRoot(s: Store, root: nat, slot: Slot, now: Store, j: string, c: Cell)
    requires IsDict(s, Link(root)) && Steady(s, root, slot, now)
    requires Later(c, root, |now|) && (j in REPLACED || j !in s[root].fields) && (c.Link? ==> c.ref >= |s|)
    ensures Steady(s, root, slot, Bind(now, root, j, c))
  {
    hide Exposed;
  }

  lemma AllocSteady(s: Store, root: nat, slot: Slot, now: Store)
    requires IsDict(s, Link(root)) && Steady(s, root, slot, now)
    ensures Steady(s, root, slot, Alloc(now))
  {
    hide Protected;
  }

  lemma SteadyAtFirst(s: Store, root: nat, slot: Slot)
    requires IsDict(s, Link(root))
    ensures Steady(s, root, slot, s)
  {
    hide Protected;
  }

  // ----- merging keeps the rest steady -----

  /** Nothing at this node is protected, nor at any mapping further down. */
  ghost predicate Writes(s: Store, root: nat, x: nat)
    requires IsDict(s, Link(root))
  {
    x >= |s| || Open(s, root, x)
  }

  ghost predicate GuardHolds(s: Store, root: nat, slot: Slot)
    requires IsDict(s, Link(root))
  {
    slot.node == root || exists section :: Guarded(s, root, section, slot)
  }

  lemma OpenUnprotected(s: Store, root: nat, slot: Slot, x: nat, k: string)
    requires IsDict(s, Link(root)) && GuardHolds(s, root, slot) && Open(s, root, x)
    ensures !Protected(s, root, slot, x, k) && x != root
  {
    ExposedAfterRoot(s, root, x);
  }

  /** A mapping under a key of an open or new mapping is open or new. */
  lemma WritesChild(s: Store, root: nat, slot: Slot, now: Store, r: nat, k: string)
    requires IsDict(s, Link(root)) && Steady(s, root, slot, now) && Writes(s, root, r)
    requires IsDict(now, Link(r)) && k in now[r].fields && IsDict(now, now[r].fields[k])
    ensures Writes(s, root, now[r].fields[k].ref)
  {
    hide Protected, Exposed, Open, SlotsKept, RootKept;
    var c := now[r].fields[k];
    assert LaterNode(now[r], r, |now|);
    if c.ref < |s| {
      assert r < |s|;
      if r == root {
        ExposedAfterRoot(s, root, r);
      }
      OpenChild(s, root, r, k);
    }
  }

  lemma {:induction false} OpenMerge(s: Store, root: nat, slot: Slot, now: Store, r: nat, updates: Json, order: Order)
    requires IsDict(s, Link(root)) && Steady(s, root, slot, now) && GuardHolds(s, root, slot) && Writes(s, root, r)
    requires IsDict(now, Link(r)) && updates.Obj? && Ordered(updates, order)
    ensures Steady(s, root, slot, MergeInto(now, r, updates, order))
    decreases updates, 1
  {
    OpenMergeKeys(s, root, slot, now, r, updates, order, |order.keys|);
  }

  lemma {:induction false} OpenMergeKeys(s: Store, root: nat, slot: Slot, now: Store, r: nat, updates: Json, order: Order, n: nat)
    requires IsDict(s, Link(root)) && Steady(s, root, slot, now) && GuardHolds(s, root, slot) && Writes(s, root, r)
    requires IsDict(now, Link(r)) && updates.Obj? && Ordered(updates, order) && n <= |order.keys|
    ensures Steady(s, root, slot, MergeKeys(now, r, updates, order, n))
    decreases updates, 0, n
  {
    hide Steady, GuardHolds, Writes;
    if n > 0 {
      OpenMergeKeys(s, root, slot, now, r, updates, order, n - 1);
      var key := order.keys[n - 1];
      assert key in Elements(order.keys);
      OpenMergeKey(s, root, slot, MergeKeys(now, r, updates, order, n - 1), r, key, updates.fields[key], order.inner[key]);
    }
  }

  lemma {:induction false} OpenMergeKey(s: Store, root: nat, slot: Slot, now: Store, r: nat, key: string, update: Json, order: Order)
    requires IsDict(s, Link(root)) && Steady(s, root, slot, now) && GuardHolds(s, root, slot) && Writes(s, root, r)
    requires IsDict(now, Link(r)) && Ordered(update, order)
    ensures Steady(s, root, slot, MergeKey(now, r, key, update, order))
    decreases update, 5
  {
    hide Steady, GuardHolds;
    if key in now[r].fields && IsDict(now, now[r].fields[key]) && update.Obj? {
      WritesChild(s, root, slot, now, r, key);
      OpenMerge(s, root, slot, now, now[r].fields[key].ref, update, order);
    } else {
      if r < |s| {
        OpenUnprotected(s, root, slot, r, key);
      }
      RootSize(s, root, slot, now);
      OpenPlaceAt(s, root, slot, now, r, key, update, order);
    }
  }

  lemma RootSize(s: Store, root: nat, slot: Slot, now: Store)
    requires IsDict(s, Link(root)) && Steady(s, root, slot, now)
    ensures root < |s| <= |now|
  {
  }

  /** A copy of evidence under a key that is not protected. */
  lemma {:induction false} OpenPlaceAt(s: Store, root: nat, slot: Slot, now: Store, r: nat, key: string, json: Json, order: Order)
    requires IsDict(s, Link(root)) && Steady(s, root, slot, now) && GuardHolds(s, root, slot)
    requires IsDict(now, Link(r)) && r != root && Ordered(json, order) && (r < |s| ==> !Protected(s, root, slot, r, key))
    ensures Steady(s, root, slot, PlaceAt(now, r, key, json, order))
    decreases json, 4
  {
    hide GuardHolds, Protected, Exposed;
    OpenPlace(s, root, slot, now, json, order);
    var (placed, c) := Place(now, json, order);
    WriteOpen(s, root, slot, placed, r, key, c);
  }

  lemma {:induction false} OpenPlace(s: Store, root: nat, slot: Slot, now: Store, json: Json, order: Order)
    requires IsDict(s, Link(root)) && Steady(s, root, slot, now) && GuardHolds(s, root, slot) && Ordered(json, order)
    ensures Steady(s, root, slot, Place(now, json, order).0)
    decreases json, 2
  {
    hide GuardHolds, Protected, Exposed;
    if json.Obj? {
      AllocSteady(s, root, slot, now);
      OpenMerge(s, root, slot, Alloc(now), |now|, json, order);
    }
  }

  /** Evidence that repeats what a mapping showed at first puts nothing else in its place. */
  lemma {:induction false} CopyMerge(s: Store, root: nat, slot: Slot, now: Store, r: nat, updates: Json, order: Order)
    requires IsDict(s, Link(root)) && Steady(s, root, slot, now) && GuardHolds(s, root, slot)
    requires root < r && IsDict(s, Link(r)) && IsDict(now, Link(r)) && updates == Read(s, Link(r)) && Ordered(updates, order)
    ensures Steady(s, root, slot, MergeInto(now, r, updates, order))
    decreases updates, 1
  {
    CopyMergeKeys(s, root, slot, now, r, updates, order, |order.keys|);
  }

  lemma FieldReads(s: Store, r: nat, json: Json, key: string)
    requires IsDict(s, Link(r)) && json == Read(s, Link(r)) && json.Obj? && key in json.fields
    ensures key in s[r].fields && In(s, s[r].fields[key]) && json.fields[key] == Read(s, s[r].fields[key])
  {
    hide Read;
    ReadKeys(s, r);
    DictHolds(s, r, key);
  }

  lemma {:induction false} CopyMergeKeys(s: Store, root: nat, slot: Slot, now: Store, r: nat, updates: Json, order: Order, n: nat)
    requires IsDict(s, Link(root)) && Steady(s, root, slot, now) && GuardHolds(s, root, slot)
    requires root < r && IsDict(s, Link(r)) && IsDict(now, Link(r)) && updates == Read(s, Link(r)) && Ordered(updates, order)
    requires n <= |order.keys|
    ensures Steady(s, root, slot, MergeKeys(now, r, updates, order, n))
    decreases updates, 0, n
  {
    hide Steady, GuardHolds, Read, MergeKey, Parts, Writable, Later;
    if n > 0 {
      CopyMergeKeys(s, root, slot, now, r, updates, order, n - 1);
      var key := order.keys[n - 1];
      assert key in Elements(order.keys);
      FieldReads(s, r, updates, key);
      CopyMergeKey(s, root, slot, MergeKeys(now, r, updates, order, n - 1), r, key, updates.fields[key], order.inner[key]);
    }
  }

  lemma {:induction false} CopyMergeKey(s: Store, root: nat, slot: Slot, now: Store, r: nat, key: string, update: Json, order: Order)
    requires IsDict(s, Link(root)) && Steady(s, root, slot, now) && GuardHolds(s, root, slot)
    requires root < r && IsDict(s, Link(r)) && IsDict(now, Link(r))
    requires key in s[r].fields && In(s, s[r].fields[key]) && update == Read(s, s[r].fields[key]) && Ordered(update, order)
    ensures Steady(s, root, slot, MergeKey(now, r, key, update, order))
    decreases update, 5
  {
    hide GuardHolds, Exposed, Read, RootKept;
    ReadShape(s, s[r].fields[key]);
    if key in now[r].fields && IsDict(now, now[r].fields[key]) && update.Obj? {
      var z := now[r].fields[key].ref;
      if z < |s| {
        assert LaterNode(s[r], r, |s|);
        CopyMerge(s, root, slot, now, z, update, order);
      } else {
        OpenMerge(s, root, slot, now, z, update, order);
      }
    } else if Protected(s, root, slot, r, key) {
      assert CellKept(s, now, r, key);
      WriteSame(s, root, slot, now, r, key);
      assert Place(now, update, order) == (now, Leaf(update));
    } else {
      OpenPlaceAt(s, root, slot, now, r, key, update, order);
    }
  }

  // ----- sections of accepted evidence -----

  /** What accepted evidence may have under a key of a section. */
  ghost predicate Fits(s: Store, n: nat, section: string, key: string, json: Json)
    requires IsDict(s, Link(n))
  {
    if Fixed(section, key) && key in s[n].fields then In(s, s[n].fields[key]) && json == Read(s, s[n].fields[key])
    else Held(section, key) ==> !json.Obj?
  }

  ghost predicate SectionFits(s: Store, n: nat, section: string, updates: Json)
    requires IsDict(s, Link(n))
  {
    updates.Obj? && forall k | k in updates.fields :: Fits(s, n, section, k, updates.fields[k])
  }

  lemma SectionUnprotected(s: Store, root: nat, slot: Slot, section: string, n: nat, k: string)
    requires IsDict(s, Link(root)) && GuardHolds(s, root, slot) && SectionAt(s, root, section, n)
    requires !Fixed(section, k) || k !in s[n].fields
    ensures !Protected(s, root, slot, n, k) && root < n < |s|
  {
    assert Exposed(s, root, n);
    ExposedAfterRoot(s, root, n);
  }

  lemma SectionKey(s: Store, root: nat, slot: Slot, now: Store, section: string, n: nat, key: string, update: Json, order: Order)
    requires IsDict(s, Link(root)) && Steady(s, root, slot, now) && GuardHolds(s, root, slot) && SectionAt(s, root, section, n)
    requires IsDict(now, Link(n)) && Fits(s, n, section, key, update) && Ordered(update, order)
    ensures Steady(s, root, slot, MergeKey(now, n, key, update, order))
  {
    hide GuardHolds, Exposed, Protected, Read, RootKept, SlotsKept, Fixed;
    assert LaterNode(s[root], root, |s|);
    if Fixed(section, key) && key in s[n].fields {
      CopyMergeKey(s, root, slot, now, n, key, update, order);
    } else {
      SectionUnprotected(s, root, slot, section, n, key);
      if key in now[n].fields && IsDict(now, now[n].fields[key]) && update.Obj? {
        var z := now[n].fields[key].ref;
        if z < |s| {
          assert LaterNode(s[n], n, |s|);
          OwnPart(s, Link(z));
          assert BelowAt(s, root, section, n, key, z);
        }
        OpenMerge(s, root, slot, now, z, update, order);
      } else {
        OpenPlaceAt(s, root, slot, now, n, key, update, order);
      }
    }
  }

  lemma {:induction false} SectionKeys(s: Store, root: nat, slot: Slot, now: Store, section: string, r: nat, updates: Json, order: Order, n: nat)
    requires IsDict(s, Link(root)) && Steady(s, root, slot, now) && GuardHolds(s, root, slot) && SectionAt(s, root, section, r)
    requires IsDict(now, Link(r)) && SectionFits(s, r, section, updates) && Ordered(updates, order) && n <= |order.keys|
    ensures Steady(s, root, slot, MergeKeys(now, r, updates, order, n))
    decreases n
  {
    hide Steady, GuardHolds, SectionAt, Fits;
    if n > 0 {
      SectionKeys(s, root, slot, now, section, r, updates, order, n - 1);
      var key := order.keys[n - 1];
      assert key in Elements(order.keys);
      SectionKey(s, root, slot, MergeKeys(now, r, updates, order, n - 1), section, r, key, updates.fields[key], order.inner[key]);
    }
  }

  /** What the evidence has for a section that the template has as a mapping fits it. */
  ghost predicate EvidenceFits(s: Store, root: nat, evidence: Json, section: string)
    requires IsDict(s, Link(root))
  {
    section in MERGED_SECTIONS ==> forall n: nat :: SectionAt(s, root, section, n) ==> SectionFits(s, n, section, Field(evidence, section))
  }

  lemma StepSteady(s: Store, root: nat, slot: Slot, now: Store, evidence: Json, order: Order, section: string)
    requires IsDict(s, Link(root)) && Steady(s, root, slot, now) && GuardHolds(s, root, slot)
    requires Covers(evidence, order, [section]) && section in MERGED_SECTIONS + {PROVENANCE} && EvidenceFits(s, root, evidence, section)
    ensures Steady(s, root, slot, Step(now, root, evidence, order, section))
  {
    hide GuardHolds, EdgesOnlyLost, SlotsKept, SectionFits, Steady;
    assert section in Elements([section]);
    RootSize(s, root, slot, now);
    SteadyRoot(s, root, slot, now);
    if section == PROVENANCE {
      PlaceRoot(s, root, slot, now, section, evidence.fields[section], order.inner[section]);
    } else {
      var ready := Defaulted(now, root, section);
      if section !in now[root].fields {
        AbsentBefore(s, root, slot, now, section);
        assert Ordered(Obj(map[]), NO_KEYS);
        PlaceRoot(s, root, slot, now, section, Obj(map[]), NO_KEYS);
      }
      SectionSteady(s, root, slot, ready, section, evidence.fields[section], order.inner[section]);
    }
  }

  lemma AbsentBefore(s: Store, root: nat, slot: Slot, now: Store, section: string)
    requires IsDict(s, Link(root)) && Steady(s, root, slot, now) && section !in now[root].fields && section !in REPLACED
    ensures section !in s[root].fields
  {
    hide EdgesOnlyLost, SlotsKept;
  }

  lemma PlaceRoot(s: Store, root: nat, slot: Slot, now: Store, j: string, json: Json, order: Order)
    requires IsDict(s, Link(root)) && Steady(s, root, slot, now) && GuardHolds(s, root, slot) && Ordered(json, order)
    requires j in REPLACED || j !in s[root].fields
    ensures Steady(s, root, slot, PlaceAt(now, root, j, json, order))
  {
    hide GuardHolds, Protected, Steady;
    RootSize(s, root, slot, now);
    OpenPlace(s, root, slot, now, json, order);
    var (placed, c) := Place(now, json, order);
    RootSize(s, root, slot, placed);
    WriteRoot(s, root, slot, placed, j, c);
  }

  lemma SectionSteady(s: Store, root: nat, slot: Slot, now: Store, section: string, updates: Json, order: Order)
    requires IsDict(s, Link(root)) && Steady(s, root, slot, now) && GuardHolds(s, root, slot) && Ordered(updates, order)
    requires section in MERGED_SECTIONS && section in now[root].fields
    requires forall n: nat :: SectionAt(s, root, section, n) ==> SectionFits(s, n, section, updates)
    ensures Steady(s, root, slot, SectionInto(now, root, section, updates, order))
  {
    hide GuardHolds, SlotsKept, SectionFits;
    var c := now[root].fields[section];
    assert LaterNode(now[root], root, |now|);
    if IsDict(now, c) && updates.Obj? {
      if c.ref < |s| {
        assert section in s[root].fields && s[root].fields[section] == c;
        assert SectionAt(s, root, section, c.ref);
        SectionKeys(s, root, slot, now, section, c.ref, updates, order, |order.keys|);
      } else {
        OpenMerge(s, root, slot, now, c.ref, updates, order);
      }
    }
  }

  lemma {:induction false} StepsSteady(s: Store, root: nat, slot: Slot, now: Store, evidence: Json, order: Order, sections: seq<string>)
    requires IsDict(s, Link(root)) && Steady(s, root, slot, now) && GuardHolds(s, root, slot)
    requires Covers(evidence, order, sections) && Elements(sections) <= MERGED_SECTIONS + {PROVENANCE}
    requires forall section :: section in sections ==> EvidenceFits(s, root, evidence, section)
    ensures Steady(s, root, slot, Steps(now, root, evidence, order, sections))
    decreases |sections|
  {
    hide Steady, GuardHolds, EvidenceFits, Step;
    if sections != [] {
      SteadyRoot(s, root, slot, now);
      var section, rest := sections[0], sections[1..];
      assert section in Elements(sections) && Elements([section]) == {section} && Elements(rest) <= Elements(sections);
      StepSteady(s, root, slot, now, evidence, order, section);
      StepsSteady(s, root, slot, Step(now, root, evidence, order, section), evidence, order, rest);
    } else {
      SteadyRoot(s, root, slot, now);
    }
  }

  lemma SteadyRoot(s: Store, root: nat, slot: Slot, now: Store)
    requires IsDict(s, Link(root)) && Steady(s, root, slot, now)
    ensures IsDict(now, Link(root))
  {
  }

  // ----- what the lock shows of it -----

  /** The lock that is assembled on a copy. */
  function SealedLock(s: Store, root: nat, evidence: Json, order: Order, sections: seq<string>): Json
    requires IsDict(s, Link(root)) && Covers(evidence, order, sections)
  {
    Read(Sealed(Steps(s, root, evidence, order, sections), root), Link(root))
  }

  /** What consists of nothing exposed shows the same. */
  lemma {:induction false} SteadyReads(s: Store, root: nat, slot: Slot, after: Store, c: Cell)
    requires IsDict(s, Link(root)) && Steady(s, root, slot, after)
    requires In(s, c) && forall x :: x in Parts(s, c) ==> x != root && !Exposed(s, root, x)
    ensures In(after, c) && Read(after, c) == Read(s, c)
    decreases Height(s, c)
  {
    hide Exposed;
    if c.Link? {
      var r := c.ref;
      assert r in Parts(s, c);
      if s[r].Dict? {
        forall k | k in s[r].fields || k in after[r].fields
          ensures CellKept(s, after, r, k) && In(after, after[r].fields[k]) && Read(after, after[r].fields[k]) == Read(s, s[r].fields[k])
        {
          assert Protected(s, root, slot, r, k);
          assert CellKept(s, after, r, k);
          DictHolds(s, r, k);
          SteadyReads(s, root, slot, after, s[r].fields[k]);
        }
        assert Read(after, c).fields == Read(s, c).fields;
      } else {
        forall i | 0 <= i < |s[r].items| ensures In(after, s[r].items[i]) && Read(after, s[r].items[i]) == Read(s, s[r].items[i]) {
          ListHolds(s, r, i);
          SteadyReads(s, root, slot, after, s[r].items[i]);
        }
        assert Read(after, c).items == Read(s, c).items;
      }
    }
  }

  /** The checks of the evidence make it fit. */
  lemma CheckedFits(s: Store, root: nat, evidence: Json, rules: FieldRules, section: string)
    requires IsDict(s, Link(root)) && EvidenceChecked(Read(s, Link(root)), evidence, rules)
    requires section in MERGED_SECTIONS ==> Field(evidence, section).Obj?
    ensures EvidenceFits(s, root, evidence, section)
  {
    hide Read;
    forall n: nat | SectionAt(s, root, section, n) ensures SectionFits(s, n, section, Field(evidence, section)) {
      DictHolds(s, root, section);
      var updates := Field(evidence, section);
      forall k | k in updates.fields ensures Fits(s, n, section, k, updates.fields[k]) {
        ReadKeys(s, n);
        if k in s[n].fields {
          DictHolds(s, n, k);
        }
        HeldFits(Read(s, Link(root)), evidence, rules, section, k);
      }
    }
  }

  lemma HeldFits(template: Json, evidence: Json, rules: FieldRules, section: string, k: string)
    requires EvidenceChecked(template, evidence, rules) && section in MERGED_SECTIONS && Field(evidence, section).Obj?
    requires k in Field(evidence, section).fields && Field(template, section).Obj?
    ensures Fixed(section, k) ==> Field(evidence, section).fields[k] == Field(Field(template, section), k)
    ensures Held(section, k) && !Fixed(section, k) ==> !Field(evidence, section).fields[k].Obj?
  {
  }

  lemma SealedSteady(s: Store, root: nat, slot: Slot, now: Store)
    requires IsDict(s, Link(root)) && Steady(s, root, slot, now) && GuardHolds(s, root, slot)
    ensures IsDict(now, Link(root)) && Steady(s, root, slot, Sealed(now, root))
  {
    hide Steady, GuardHolds;
    SteadyRoot(s, root, slot, now);
    PlaceRoot(s, root, slot, now, "status", Text("complete"), NO_KEYS);
    PlaceRoot(s, root, slot, PlaceAt(now, root, "status", Text("complete"), NO_KEYS), "unresolved", Items([]), NO_KEYS);
  }

  /** An accepted finalisation, on the copy it is carried out on. */
  lemma FinalizationSteady(s: Store, root: nat, slot: Slot, evidence: Json, order: Order, sections: seq<string>, rules: FieldRules)
    requires IsDict(s, Link(root)) && GuardHolds(s, root, slot) && Covers(evidence, order, sections) && ListsSections(sections)
    requires EvidenceChecked(Read(s, Link(root)), evidence, rules) && AllMergeable(Read(s, Link(root)), evidence, sections)
    ensures Steady(s, root, slot, Sealed(Steps(s, root, evidence, order, sections), root))
  {
    hide Steady, GuardHolds, EvidenceChecked, Read, EvidenceFits, Sealed;
    SteadyAtFirst(s, root, slot);
    forall section | section in sections ensures EvidenceFits(s, root, evidence, section) {
      if section in MERGED_SECTIONS {
        assert Mergeable(Read(s, Link(root)), evidence, section);
      }
      CheckedFits(s, root, evidence, rules, section);
    }
    StepsSteady(s, root, slot, s, evidence, order, sections);
    SealedSteady(s, root, slot, Steps(s, root, evidence, order, sections));
  }

  lemma SlotShown(s: Store, root: nat, section: string, slot: Slot, after: Store)
    requires IsDict(s, Link(root)) && Guarded(s, root, section, slot) && Steady(s, root, slot, after)
    requires In(s, s[slot.node].fields[slot.key])
    requires forall x :: x in Parts(s, s[slot.node].fields[slot.key]) ==> !Exposed(s, root, x)
    ensures Field(Field(Read(after, Link(root)), section), slot.key) == Read(s, s[slot.node].fields[slot.key])
  {
    hide Exposed, Open, Read, Parts;
    var n, k := slot.node, slot.key;
    var c := s[n].fields[k];
    assert LaterNode(s[root], root, |s|) && LaterNode(s[n], n, |s|);
    assert Protected(s, root, slot, n, k);
    assert CellKept(s, after, n, k);
    DictHolds(after, root, section);
    DictHolds(after, n, k);
    if after[n].fields[k] == c {
      PartsAfter(s, c, n);
      SteadyReads(s, root, slot, after, c);
    } else {
      LeafReads(after, after[n].fields[k]);
    }
  }

  lemma PartsAfter(s: Store, c: Cell, n: nat)
    requires In(s, c) && Later(c, n, |s|)
    ensures forall x :: x in Parts(s, c) ==> x > n
  {
  }

  lemma LeafReads(s: Store, c: Cell)
    requires In(s, c) && c.Leaf?
    ensures Read(s, c) == c.json && Parts(s, c) == {}
  {
  }

  lemma RootShown(s: Store, root: nat, slot: Slot, after: Store, j: string)
    requires IsDict(s, Link(root)) && Steady(s, root, slot, after) && j in s[root].fields && j !in REPLACED && In(s, s[root].fields[j])
    requires forall x :: x in Parts(s, s[root].fields[j]) ==> !Exposed(s, root, x)
    ensures Field(Read(after, Link(root)), j) == Read(s, s[root].fields[j])
  {
    hide Exposed, Open, Read, Parts;
    assert LaterNode(s[root], root, |s|);
    PartsAfter(s, s[root].fields[j], root);
    SteadyReads(s, root, slot, after, s[root].fields[j]);
    DictHolds(after, root, j);
  }

  /** Where nothing of a base record is exposed, its slot is guarded. */
  lemma BaseGuarded(s: Store, root: nat, i: nat, role: string)
    requires IsDict(s, Link(root)) && SectionAt(s, root, "images", i) && role in BASE_ROLES
    requires role in s[i].fields && IsDict(s, s[i].fields[role]) && !Exposed(s, root, s[i].fields[role].ref)
    ensures Guarded(s, root, "images", Slot(i, role))
  {
    var record := s[i].fields[role].ref;
    if Open(s, root, i) {
      OpenChild(s, root, i, role);
    }
    OwnPart(s, s[i].fields[role]);
    forall other | other != "images" ensures !SectionAt(s, root, other, i) {
      if SectionAt(s, root, other, i) {
        SectionOpens(s, root, other, i, role);
      }
    }
  }

  lemma SectionOpens(s: Store, root: nat, section: string, n: nat, k: string)
    requires IsDict(s, Link(root)) && SectionAt(s, root, section, n) && !Held(section, k) && k in s[n].fields && IsDict(s, s[n].fields[k])
    ensures Open(s, root, s[n].fields[k].ref)
  {
    assert LaterNode(s[n], n, |s|);
    OwnPart(s, s[n].fields[k]);
    assert BelowAt(s, root, section, n, k, s[n].fields[k].ref);
  }

  // ----- evidence that changes an exposed mapping -----

  predicate Scalar(json: Json) {
    !json.Obj? && !json.Items?
  }

  /** What is known of the writes besides the one that is aimed at: two values, and a key that is not written. */
  datatype Known = Known(version: Json, count: Json, keep: string)

  predicate WrittenAs(key: string, c: Cell, known: Known) {
    && c.Leaf? && Scalar(c.json) && key != known.keep
    && (key == "minikube_version" ==> c.json == known.version) && (key == "node_count" ==> c.json == known.count)
  }

  ghost predicate Trimmed(s: Store, root: nat, known: Known, after: Store) {
    && |s| <= |after| && IsDict(s, Link(root)) && IsDict(after, Link(root))
    && (forall x: nat | x < |s| :: s[x].Dict? == after[x].Dict? && (s[x].List? ==> after[x] == s[x]))
    && (forall x: nat, k | x < |s| && x != root && IsDict(s, Link(x)) && IsDict(after, Link(x)) :: TrimmedAt(s, known, after, x, k))
    && (forall j | j in s[root].fields && j !in REPLACED :: j in after[root].fields && after[root].fields[j] == s[root].fields[j])
  }

  ghost predicate TrimmedAt(s: Store, known: Known, after: Store, x: nat, k: string)
    requires IsDict(s, Link(x)) && IsDict(after, Link(x))
  {
    && (k in s[x].fields ==> k in after[x].fields)
    && (k in after[x].fields ==>
          (k in s[x].fields && after[x].fields[k] == s[x].fields[k]) || WrittenAs(k, after[x].fields[k], known))
  }

  lemma TrimmedTwice(s: Store, root: nat, known: Known, now: Store, after: Store)
    requires Trimmed(s, root, known, now) && Trimmed(now, root, known, after)
    ensures Trimmed(s, root, known, after)
  {
    hide WrittenAs;
    forall x: nat, k | x < |s| && x != root && IsDict(s, Link(x)) && IsDict(after, Link(x))
      ensures TrimmedAt(s, known, after, x, k)
    {
      assert TrimmedAt(s, known, now, x, k) && TrimmedAt(now, known, after, x, k);
    }
  }

  lemma TrimmedAtFirst(s: Store, root: nat, known: Known)
    requires IsDict(s, Link(root))
    ensures Trimmed(s, root, known, s)
  {
  }

  lemma TrimmedWrite(s: Store, root: nat, known: Known, x: nat, k: string, c: Cell)
    requires IsDict(s, Link(root)) && IsDict(s, Link(x)) && x != root && Later(c, x, |s|) && WrittenAs(k, c, known)
    ensures Trimmed(s, root, known, Bind(s, x, k, c))
  {
  }

  lemma TrimmedRoot(s: Store, root: nat, known: Known, after: Store)
    requires IsDict(s, Link(root)) && IsDict(after, Link(root)) && |s| <= |after|
    requires forall x: nat | x < |s| && x != root :: after[x] == s[x]
    requires forall j | j in s[root].fields && j !in REPLACED :: j in after[root].fields && after[root].fields[j] == s[root].fields[j]
    ensures Trimmed(s, root, known, after)
  {
  }

  lemma FieldDiffers(s: Store, after: Store, r: nat, k: string)
    requires IsDict(s, Link(r)) && IsDict(after, Link(r)) && k in after[r].fields && In(after, after[r].fields[k])
    requires k in s[r].fields && In(s, s[r].fields[k]) ==> Read(after, after[r].fields[k]) != Read(s, s[r].fields[k])
    ensures Read(after, Link(r)) != Read(s, Link(r))
  {
    hide Read;
    ReadKeys(s, r);
    DictHolds(after, r, k);
    if k in s[r].fields {
      DictHolds(s, r, k);
    }
  }

  lemma AimShows(s: Store, root: nat, known: Known, x: nat, after: Store)
    requires known.keep == ""
    requires IsDict(s, Link(x)) && x != root && Trimmed(Marked(s, x), root, known, after)
    ensures IsDict(after, Link(x)) && Read(after, Link(x)) != Read(s, Link(x))
  {
    hide Read;
    assert TrimmedAt(Marked(s, x), known, after, x, "");
    LeafReads(after, after[x].fields[""]);
    FieldDiffers(s, after, x, "");
  }

  lemma TrimmedFacts(s: Store, root: nat, known: Known, x: nat, after: Store, r: nat)
    requires IsDict(s, Link(x)) && x != root && Trimmed(Marked(s, x), root, known, after)
    requires r < |s| && r != root && r != x
    ensures r < |after| && s[r].Dict? == after[r].Dict? && (s[r].List? ==> after[r] == s[r])
    ensures forall k :: s[r].Dict? && k in s[r].fields ==> k in after[r].fields && (after[r].fields[k] == s[r].fields[k] || WrittenAs(k, after[r].fields[k], known))
  {
    hide WrittenAs, Novel;
    assert Marked(s, x)[r] == s[r];
    forall k | s[r].Dict? && k in s[r].fields
      ensures k in after[r].fields && (after[r].fields[k] == s[r].fields[k] || WrittenAs(k, after[r].fields[k], known))
    {
      assert TrimmedAt(Marked(s, x), known, after, r, k);
    }
  }

  /** Everything that has the aimed-at mapping as a part shows that something was written. */
  lemma {:induction false} ChangeShows(s: Store, root: nat, known: Known, x: nat, after: Store, c: Cell)
    requires known.keep == ""
    requires IsDict(s, Link(x)) && x != root && Trimmed(Marked(s, x), root, known, after)
    requires In(s, c) && x in Parts(s, c) && root !in Parts(s, c)
    ensures In(after, c) && Read(after, c) != Read(s, c)
    decreases Height(s, c)
  {
    hide Trimmed, Marked, Read;
    var r := c.ref;
    PartIsOwn(s, c);
    if r == x {
      AimShows(s, root, known, x, after);
    } else {
      TrimmedFacts(s, root, known, x, after, r);
      if s[r].Dict? {
        var k :| k in s[r].fields && In(s, s[r].fields[k]) && x in Parts(s, s[r].fields[k]);
        DictHolds(s, r, k);
        DictHolds(after, r, k);
        if after[r].fields[k] == s[r].fields[k] {
          ChangeShows(s, root, known, x, after, s[r].fields[k]);
        } else {
          LinkReads(s, s[r].fields[k]);
          LeafReads(after, after[r].fields[k]);
        }
        FieldDiffers(s, after, r, k);
      } else {
        var i :| 0 <= i < |s[r].items| && In(s, s[r].items[i]) && x in Parts(s, s[r].items[i]);
        ListHolds(s, r, i);
        ChangeShows(s, root, known, x, after, s[r].items[i]);
        ItemDiffers(s, after, r, i);
      }
    }
  }

  lemma PartIsOwn(s: Store, c: Cell)
    requires In(s, c) && Parts(s, c) != {}
    ensures c.Link? && c.ref in Parts(s, c)
  {
  }

  lemma ItemDiffers(s: Store, after: Store, r: nat, i: nat)
    requires r < |s| && s[r].List? && r < |after| && after[r] == s[r] && i < |s[r].items|
    requires In(s, s[r].items[i]) && In(after, s[r].items[i]) && Read(after, s[r].items[i]) != Read(s, s[r].items[i])
    ensures Read(after, Link(r)) != Read(s, Link(r))
  {
    assert Read(after, Link(r)).items[i] != Read(s, Link(r)).items[i];
  }

  lemma LinkReads(s: Store, c: Cell)
    requires In(s, c) && c.Link?
    ensures !Scalar(Read(s, c))
  {
  }

  /** A template for which there is accepted evidence at all: valid, with nodes that are counted and room for the toolchain. */
  predicate Admissible(template: Json) {
    && StaticShape(template) && Counted(template)
    && ("toolchain" in template.fields ==> template.fields["toolchain"].Obj?)
  }

  predicate Counted(template: Json) {
    Field(Field(template, "cluster"), "node_count").Number? && Field(Field(template, "cluster"), "node_count").number >= 1
  }

  function Version(template: Json): Json {
    Field(Field(template, "cluster"), "minikube_version")
  }

  function Count(template: Json): Json {
    Field(Field(template, "cluster"), "node_count")
  }

  function KnownOf(template: Json, keep: string): Known {
    Known(Version(template), Count(template), keep)
  }

  /** The least that accepted evidence has in a section. */
  function Required(template: Json, section: string): map<string, Json> {
    if section == "cluster" then
      map f | f in PINNED_FIELDS + IDENTITY_FIELDS :: if f in PINNED_FIELDS then Field(Field(template, "cluster"), f) else Text("x")
    else if section == "toolchain" then map["minikube_version" := Version(template)]
    else map[]
  }

  lemma RequiredScalar(template: Json, section: string, k: string, keep: string)
    requires Admissible(template) && k in Required(template, section)
    ensures Held(section, k) && Scalar(Required(template, section)[k])
    ensures k != keep ==> WrittenAs(k, Leaf(Required(template, section)[k]), KnownOf(template, keep))
  {
    if section == "cluster" && k in PINNED_FIELDS && k != "node_count" {
      assert k in TEXT_CHOICES;
    }
  }

  lemma NothingRequired(template: Json, section: string)
    ensures "" !in Required(template, section)
  {
  }

  lemma {:induction false} TrimmedKeys(s: Store, root: nat, known: Known, r: nat, updates: Json, order: Order, m: nat, n: nat)
    requires IsDict(s, Link(root)) && IsDict(s, Link(r)) && r > root && updates.Obj? && Ordered(updates, order) && m <= n <= |order.keys|
    requires forall j :: m <= j < n ==> order.keys[j] in updates.fields && WrittenAs(order.keys[j], Leaf(updates.fields[order.keys[j]]), known)
    ensures Trimmed(MergeKeys(s, r, updates, order, m), root, known, MergeKeys(s, r, updates, order, n))
    decreases n
  {
    hide Trimmed, WrittenAs, Scalar;
    if m == n {
      TrimmedAtFirst(MergeKeys(s, r, updates, order, m), root, known);
    } else {
      TrimmedKeys(s, root, known, r, updates, order, m, n - 1);
      var now, key := MergeKeys(s, r, updates, order, n - 1), order.keys[n - 1];
      ScalarLeaf(key, updates.fields[key], known);
      LeafMerge(now, r, key, updates.fields[key], order.inner[key]);
      TrimmedWrite(now, root, known, r, key, Leaf(updates.fields[key]));
      TrimmedTwice(MergeKeys(s, r, updates, order, m), root, known, now, Bind(now, r, key, Leaf(updates.fields[key])));
    }
  }

  lemma ScalarLeaf(key: string, json: Json, known: Known)
    requires WrittenAs(key, Leaf(json), known)
    ensures !json.Obj?
  {
  }

  lemma LeafMerge(s: Store, r: nat, key: string, update: Json, order: Order)
    requires IsDict(s, Link(r)) && !update.Obj? && Ordered(update, order)
    ensures Later(Leaf(update), r, |s|) && MergeKey(s, r, key, update, order) == Bind(s, r, key, Leaf(update))
  {
    assert Place(s, update, order) == (s, Leaf(update));
    assert MergeKey(s, r, key, update, order) == PlaceAt(s, r, key, update, order);
  }

  // ----- the steps after the one that is aimed -----

  ghost predicate RequiredEvidence(template: Json, evidence: Json, section: string) {
    section in MERGED_SECTIONS ==> Field(evidence, section) == Obj(Required(template, section))
  }

  lemma DefaultedTrimmed(s: Store, root: nat, known: Known, section: string)
    requires IsDict(s, Link(root))
    ensures Trimmed(s, root, known, Defaulted(s, root, section))
    ensures section !in s[root].fields ==>
              Defaulted(s, root, section)[root].fields[section] == Link(|s|) && IsDict(Defaulted(s, root, section), Link(|s|))
  {
    EmptyPlaced(s);
    if section in s[root].fields {
      TrimmedAtFirst(s, root, known);
    } else {
      TrimmedRoot(s, root, known, Defaulted(s, root, section));
    }
  }

  lemma KeysListed(json: Json, order: Order)
    requires Ordered(json, order) && json.Obj?
    ensures Elements(order.keys) == json.fields.Keys
  {
  }

  lemma RequiredStep(s: Store, root: nat, template: Json, evidence: Json, order: Order, section: string, keep: string)
    requires IsDict(s, Link(root)) && Admissible(template) && Covers(evidence, order, [section])
    requires section in MERGED_SECTIONS + {PROVENANCE} && RequiredEvidence(template, evidence, section)
    requires keep !in Required(template, section)
    ensures Trimmed(s, root, KnownOf(template, keep), Step(s, root, evidence, order, section))
  {
    hide Trimmed, Required, Admissible, Version, Count;
    assert section in Elements([section]);
    var known := KnownOf(template, keep);
    if section == PROVENANCE {
      var (placed, c) := Place(s, evidence.fields[section], order.inner[section]);
      TrimmedRoot(s, root, known, Step(s, root, evidence, order, section));
    } else {
      var ready := Defaulted(s, root, section);
      DefaultedTrimmed(s, root, known, section);
      var c := ready[root].fields[section];
      assert LaterNode(ready[root], root, |ready|);
      if IsDict(ready, c) {
        var updates, inner := evidence.fields[section], order.inner[section];
        assert updates == Obj(Required(template, section));
        KeysListed(updates, inner);
        forall j | 0 <= j < |inner.keys|
          ensures inner.keys[j] in updates.fields && WrittenAs(inner.keys[j], Leaf(updates.fields[inner.keys[j]]), known)
        {
          assert inner.keys[j] in Elements(inner.keys);
          assert inner.keys[j] in updates.fields;
          RequiredScalar(template, section, inner.keys[j], keep);
        }
        TrimmedKeys(ready, root, known, c.ref, updates, inner, 0, |inner.keys|);
        TrimmedTwice(s, root, known, ready, MergeInto(ready, c.ref, updates, inner));
      }
    }
  }

  lemma {:induction false} RequiredSteps(s: Store, root: nat, template: Json, evidence: Json, order: Order, sections: seq<string>, keep: string)
    requires IsDict(s, Link(root)) && Admissible(template) && Covers(evidence, order, sections)
    requires Elements(sections) <= MERGED_SECTIONS + {PROVENANCE}
    requires forall section :: section in sections ==> RequiredEvidence(template, evidence, section) && keep !in Required(template, section)
    ensures Trimmed(s, root, KnownOf(template, keep), Steps(s, root, evidence, order, sections))
    decreases |sections|
  {
    hide Trimmed, Required, Admissible, Version, Count, Step, RequiredEvidence;
    if sections == [] {
      TrimmedAtFirst(s, root, KnownOf(template, keep));
    } else {
      var section, rest := sections[0], sections[1..];
      assert section in Elements(sections) && Elements([section]) == {section} && Elements(rest) <= Elements(sections);
      RequiredStep(s, root, template, evidence, order, section, keep);
      var now := Step(s, root, evidence, order, section);
      RequiredSteps(now, root, template, evidence, order, rest, keep);
      TrimmedTwice(s, root, KnownOf(template, keep), now, Steps(now, root, evidence, order, rest));
    }
  }

  lemma SealedTrimmed(s: Store, root: nat, known: Known)
    requires IsDict(s, Link(root))
    ensures Trimmed(s, root, known, Sealed(s, root))
  {
    TrimmedRoot(s, root, known, Sealed(s, root));
  }

  // ----- the toolchain agrees with the cluster -----

  ghost predicate HasVersion(s: Store, root: nat, version: Json)
    requires IsDict(s, Link(root))
  {
    && "toolchain" in s[root].fields && IsDict(s, s[root].fields["toolchain"])
    && var n := s[root].fields["toolchain"].ref;
       "minikube_version" in s[n].fields && s[n].fields["minikube_version"] == Leaf(version)
  }

  lemma VersionStays(s: Store, root: nat, known: Known, after: Store)
    requires IsDict(s, Link(root)) && HasVersion(s, root, known.version) && Trimmed(s, root, known, after)
    ensures HasVersion(after, root, known.version)
  {
    assert LaterNode(s[root], root, |s|);
    var n := s[root].fields["toolchain"].ref;
    assert TrimmedAt(s, known, after, n, "minikube_version");
  }

  /** A leaf of the evidence is there after the merge, whatever else the merge writes to. */
  lemma {:induction false} LeafWins(s: Store, r: nat, updates: Json, order: Order, f: string, n: nat)
    requires IsDict(s, Link(r)) && updates.Obj? && Ordered(updates, order) && n <= |order.keys|
    requires f in order.keys[..n] && f in updates.fields && !updates.fields[f].Obj?
    ensures f in MergeKeys(s, r, updates, order, n)[r].fields && MergeKeys(s, r, updates, order, n)[r].fields[f] == Leaf(updates.fields[f])
    decreases n
  {
    var key, now := order.keys[n - 1], MergeKeys(s, r, updates, order, n - 1);
    assert key in Elements(order.keys) && key in order.inner && Ordered(updates.fields[key], order.inner[key]);
    assert MergeKeys(s, r, updates, order, n) == MergeKey(now, r, key, updates.fields[key], order.inner[key]);
    assert order.keys[..n] == order.keys[..n - 1] + [key];
    var update, inner := updates.fields[key], order.inner[key];
    if key != f {
      LeafWins(s, r, updates, order, f, n - 1);
    }
    hide Ordered, MergeKey, MergeKeys;
    if key == f {
      LeafMerge(now, r, f, update, inner);
    } else {
      OtherKey(now, r, key, update, inner, f);
    }
  }

  lemma OtherKey(s: Store, r: nat, key: string, update: Json, order: Order, f: string)
    requires IsDict(s, Link(r)) && Ordered(update, order) && f != key && f in s[r].fields
    ensures f in MergeKey(s, r, key, update, order)[r].fields && MergeKey(s, r, key, update, order)[r].fields[f] == s[r].fields[f]
  {
    assert LaterNode(s[r], r, |s|);
  }

  ghost predicate RoomForToolchain(s: Store, root: nat)
    requires IsDict(s, Link(root))
  {
    "toolchain" in s[root].fields ==> IsDict(s, s[root].fields["toolchain"])
  }

  lemma ToolchainStep(s: Store, root: nat, version: Json, evidence: Json, order: Order)
    requires IsDict(s, Link(root)) && RoomForToolchain(s, root) && Covers(evidence, order, ["toolchain"])
    requires var updates := Field(evidence, "toolchain");
             updates.Obj? && "minikube_version" in updates.fields && updates.fields["minikube_version"] == version && !version.Obj?
    ensures HasVersion(Step(s, root, evidence, order, "toolchain"), root, version)
  {
    assert "toolchain" in Elements(["toolchain"]);
    EmptyPlaced(s);
    var ready := Defaulted(s, root, "toolchain");
    var c := ready[root].fields["toolchain"];
    assert LaterNode(ready[root], root, |ready|);
    var updates, inner := evidence.fields["toolchain"], order.inner["toolchain"];
    KeysListed(updates, inner);
    assert "minikube_version" in inner.keys && inner.keys[..|inner.keys|] == inner.keys;
    LeafWins(ready, c.ref, updates, inner, "minikube_version", |inner.keys|);
  }

  lemma {:induction false} RequiredStepsVersion(s: Store, root: nat, template: Json, evidence: Json, order: Order, sections: seq<string>)
    requires IsDict(s, Link(root)) && Admissible(template) && Covers(evidence, order, sections)
    requires Elements(sections) <= MERGED_SECTIONS + {PROVENANCE}
    requires forall section :: section in sections ==> RequiredEvidence(template, evidence, section)
    requires HasVersion(s, root, Version(template)) || ("toolchain" in sections && RoomForToolchain(s, root))
    ensures HasVersion(Steps(s, root, evidence, order, sections), root, Version(template))
    decreases |sections|
  {
    hide Trimmed, HasVersion, Step, Version, Count, Admissible;
    if sections != [] {
      var section, rest := sections[0], sections[1..];
      assert section in Elements(sections) && Elements([section]) == {section} && Elements(rest) <= Elements(sections);
      var now := Step(s, root, evidence, order, section);
      NothingRequired(template, section);
      RequiredStep(s, root, template, evidence, order, section, "");
      if HasVersion(s, root, Version(template)) {
        VersionStays(s, root, KnownOf(template, ""), now);
      } else if section == "toolchain" {
        VersionText(template);
        ToolchainStep(s, root, Version(template), evidence, order);
      } else {
        StepKeepsCells(s, root, evidence, order, section, "toolchain");
      }
      RequiredStepsVersion(now, root, template, evidence, order, rest);
    }
  }

  lemma VersionText(template: Json)
    requires Admissible(template)
    ensures Version(template).Text?
  {
    assert "minikube_version" in TEXT_CHOICES;
  }

  // ----- the evidence that is aimed at an exposed mapping -----

  /** A key of a section under which evidence writes to one mapping only. */
  lemma AimedKey(s: Store, root: nat, x: nat) returns (section: string, n: nat, k: string, update: Json, order: Order)
    requires IsDict(s, Link(root)) && Exposed(s, root, x)
    ensures SectionAt(s, root, section, n) && !Held(section, k) && Ordered(update, order) && IsDict(s, Link(x))
    ensures MergeKey(s, n, k, update, order) == Marked(s, x)
  {
    hide Held;
    ExposedAfterRoot(s, root, x);
    if Open(s, root, x) {
      section, n, k :| BelowAt(s, root, section, n, k, x);
      var c := s[n].fields[k];
      WritableDict(s, c, x);
      update, order := Aim(s, c.ref, x, "", Novel(s, x));
    } else {
      section :| SectionAt(s, root, section, x);
      n, k, update, order := x, "", Novel(s, x), NO_KEYS;
      NothingHeld(section);
      LeafMerge(s, x, "", update, order);
    }
  }

  lemma NothingHeld(section: string)
    ensures !Held(section, "")
  {
  }

  lemma WritableIsDict(s: Store, c: Cell)
    requires In(s, c) && Writable(s, c) != {}
    ensures IsDict(s, c)
  {
  }

  ghost function AimedSection(template: Json, section: string, k: string, update: Json): Json {
    Obj(Required(template, section)[k := update])
  }

  ghost function AimedFields(keys: set<string>, template: Json, section: string, k: string, update: Json): map<string, Json> {
    map other | other in keys ::
      if other == section then AimedSection(template, section, k, update) else Obj(Required(template, other))
  }

  ghost function AimedEvidence(template: Json, section: string, k: string, update: Json): Json {
    Obj(AimedFields(MERGED_SECTIONS + {PROVENANCE}, template, section, k, update))
  }

  lemma MapOrdered(fields: map<string, Json>, keys: seq<string>, inner: map<string, Order>)
    requires Distinct(keys) && Elements(keys) == fields.Keys == inner.Keys
    requires forall k :: k in fields ==> Ordered(fields[k], inner[k])
    ensures Ordered(Obj(fields), Order(keys, inner))
  {
  }

  lemma AimedOrder(template: Json, section: string, k: string, update: Json, order: Order) returns (inner: Order)
    requires Admissible(template) && !Held(section, k) && Ordered(update, order)
    ensures Ordered(AimedSection(template, section, k, update), inner)
    ensures |inner.keys| >= 1 && inner.keys[0] == k && k in inner.inner && inner.inner[k] == order
    ensures forall j :: 1 <= j < |inner.keys| ==> inner.keys[j] in Required(template, section) && inner.keys[j] != k
  {
    hide Required, Held, Admissible, SectionFirst, Ordered;
    var required := Required(template, section);
    var keys := required.Keys + {k};
    var listed := SectionFirst(keys, k);
    SectionFirstLists(keys, k);
    var orders := map j | j in keys :: if j == k then order else NO_KEYS;
    inner := Order(listed, orders);
    forall j | j in required ensures Ordered(required[j], NO_KEYS) {
      RequiredScalar(template, section, j, k);
      NoKeysNeeded(required[j]);
    }
    MapOrdered(required[k := update], listed, orders);
    forall j | 1 <= j < |listed| ensures listed[j] in required && listed[j] != k {
      assert listed[j] in Elements(listed) && listed[j] in listed[1..];
    }
  }

  lemma NoKeysNeeded(json: Json)
    requires !json.Obj?
    ensures Ordered(json, NO_KEYS)
  {
  }

  ghost function LeastOrder(template: Json, section: string): (order: Order)
    ensures Ordered(Obj(Required(template, section)), order)
  {
    RequiredOrdered(template, section);
    ChosenOrder(Obj(Required(template, section)))
  }

  lemma RequiredOrdered(template: Json, section: string)
    ensures exists o :: Ordered(Obj(Required(template, section)), o)
  {
    var o := SomeOrder(Obj(Required(template, section)));
  }

  lemma FieldsOrder(keys: set<string>, template: Json, section: string, k: string, update: Json, inner: Order, sections: seq<string>)
      returns (order: Order)
    requires section in keys && Ordered(AimedSection(template, section, k, update), inner) && Distinct(sections) && Elements(sections) == keys
    ensures Ordered(Obj(AimedFields(keys, template, section, k, update)), order)
    ensures section in order.inner && order.inner[section] == inner
    ensures forall other :: other in keys && other != section ==> other in order.inner && order.inner[other] == LeastOrder(template, other)
  {
    hide Required, AimedSection, Ordered, LeastOrder;
    var orders := map other | other in keys :: if other == section then inner else LeastOrder(template, other);
    order := Order(sections, orders);
    MapOrdered(AimedFields(keys, template, section, k, update), sections, orders);
  }

  lemma EvidenceOrder(template: Json, section: string, k: string, update: Json, inner: Order, sections: seq<string>) returns (order: Order)
    requires section in MERGED_SECTIONS && Ordered(AimedSection(template, section, k, update), inner) && ListsSections(sections)
    ensures Covers(AimedEvidence(template, section, k, update), order, sections)
    ensures section in order.inner && order.inner[section] == inner
    ensures section != "cluster" ==> "cluster" in order.inner && order.inner["cluster"] == LeastOrder(template, "cluster")
  {
    hide Required, AimedSection, Ordered, LeastOrder, AimedFields;
    var keys := MERGED_SECTIONS + {PROVENANCE};
    order := FieldsOrder(keys, template, section, k, update, inner, sections);
    FieldsKeys(keys, template, section, k, update);
  }

  lemma FieldsKeys(keys: set<string>, template: Json, section: string, k: string, update: Json)
    ensures AimedFields(keys, template, section, k, update).Keys == keys
  {
  }

  lemma PresentStep(s: Store, root: nat, evidence: Json, order: Order, section: string, n: nat)
    requires IsDict(s, Link(root)) && SectionAt(s, root, section, n) && Covers(evidence, order, [section]) && section in order.inner
    requires Field(evidence, section).Obj? && Ordered(Field(evidence, section), order.inner[section])
    ensures Step(s, root, evidence, order, section) == MergeInto(s, n, Field(evidence, section), order.inner[section])
  {
    hide MergeInto;
    assert section in Elements([section]);
  }

  lemma AimedStep(s: Store, root: nat, aimed: Store, template: Json, evidence: Json, order: Order, section: string, n: nat, k: string, update: Json, keep: string)
    requires IsDict(s, Link(root)) && Admissible(template) && keep !in Required(template, section) && SectionAt(s, root, section, n)
    requires Covers(evidence, order, [section]) && Field(evidence, section) == AimedSection(template, section, k, update)
    requires section in order.inner && Ordered(AimedSection(template, section, k, update), order.inner[section])
    requires var keys := order.inner[section].keys;
             && |keys| >= 1 && keys[0] == k && k in order.inner[section].inner && Ordered(update, order.inner[section].inner[k])
             && MergeKey(s, n, k, update, order.inner[section].inner[k]) == aimed
             && forall j :: 1 <= j < |keys| ==> keys[j] in Required(template, section) && keys[j] != k
    ensures Trimmed(aimed, root, KnownOf(template, keep), Step(s, root, evidence, order, section))
  {
    hide Step, MergeKey, Trimmed, Required, Admissible, Version, Count, WrittenAs, Held;
    assert LaterNode(s[root], root, |s|) && section in Elements([section]) && section in MERGED_SECTIONS;
    var updates, inner := Field(evidence, section), order.inner[section];
    forall j | 1 <= j < |inner.keys|
      ensures inner.keys[j] in updates.fields && WrittenAs(inner.keys[j], Leaf(updates.fields[inner.keys[j]]), KnownOf(template, keep))
    {
      RequiredScalar(template, section, inner.keys[j], keep);
    }
    PresentStep(s, root, evidence, order, section, n);
    FirstKey(s, n, updates, inner);
    TrimmedKeys(s, root, KnownOf(template, keep), n, updates, inner, 1, |inner.keys|);
  }

  lemma FirstKey(s: Store, n: nat, updates: Json, order: Order)
    requires IsDict(s, Link(n)) && updates.Obj? && Ordered(updates, order) && |order.keys| >= 1
    ensures order.keys[0] in updates.fields && order.keys[0] in order.inner && Ordered(updates.fields[order.keys[0]], order.inner[order.keys[0]])
    ensures MergeKeys(s, n, updates, order, 1) == MergeKey(s, n, order.keys[0], updates.fields[order.keys[0]], order.inner[order.keys[0]])
  {
    assert order.keys[0] in Elements(order.keys);
    assert MergeKeys(s, n, updates, order, 0) == s;
  }

  lemma AdmissibleRoom(s: Store, root: nat)
    requires IsDict(s, Link(root)) && Admissible(Read(s, Link(root)))
    ensures RoomForToolchain(s, root)
  {
    hide Read;
    ReadKeys(s, root);
    if "toolchain" in s[root].fields {
      DictHolds(s, root, "toolchain");
    }
  }

  lemma AimedVersion(s: Store, root: nat, template: Json, evidence: Json, order: Order, section: string, k: string, update: Json)
    requires IsDict(s, Link(root)) && Admissible(template) && RoomForToolchain(s, root)
    requires Covers(evidence, order, [section]) && Field(evidence, section) == AimedSection(template, section, k, update) && !Held(section, k)
    ensures section == "toolchain" ==> HasVersion(Step(s, root, evidence, order, section), root, Version(template))
    ensures section != "toolchain" ==> RoomForToolchain(Step(s, root, evidence, order, section), root)
  {
    hide Admissible, Step, Version;
    if section == "toolchain" {
      VersionText(template);
      assert k != "minikube_version";
      ToolchainStep(s, root, Version(template), evidence, order);
    } else {
      StepKeepsCells(s, root, evidence, order, section, "toolchain");
    }
  }

  /** Accepted evidence that changes an exposed mapping, and leaves all else of the heap but scalars. */
  lemma ExposedWritten(s: Store, root: nat, x: nat)
      returns (evidence: Json, order: Order, sections: seq<string>, section: string, k: string, update: Json)
    requires IsDict(s, Link(root)) && Exposed(s, root, x) && Admissible(Read(s, Link(root)))
    ensures ListsSections(sections) && Covers(evidence, order, sections) && IsDict(s, Link(x)) && x != root
    ensures !Held(section, k) && (exists n: nat :: SectionAt(s, root, section, n))
    ensures evidence == AimedEvidence(Read(s, Link(root)), section, k, update)
    ensures var t, after := Read(s, Link(root)), Sealed(Steps(s, root, evidence, order, sections), root);
            Trimmed(Marked(s, x), root, KnownOf(t, ""), after) && HasVersion(after, root, Version(t))
  {
    hide SectionFirst, Trimmed, Required, Admissible, Version, Count, Held, Marked, Read, HasVersion, Step, Sealed, Ordered, RoomForToolchain, Exposed, Open;
    var t := Read(s, Link(root));
    var n, o;
    section, n, k, update, o := AimedKey(s, root, x);
    ExposedAfterRoot(s, root, x);
    var inner := AimedOrder(t, section, k, update, o);
    evidence := AimedEvidence(t, section, k, update);
    SectionFirstLists(MERGED_SECTIONS + {PROVENANCE}, section);
    sections := SectionFirst(MERGED_SECTIONS + {PROVENANCE}, section);
    order := EvidenceOrder(t, section, k, update, inner, sections);
    var rest := sections[1..];
    assert section in Elements(sections) && Elements([section]) == {section} && Elements(rest) <= Elements(sections);
    NothingRequired(t, section);
    AimedStep(s, root, Marked(s, x), t, evidence, order, section, n, k, update, "");
    AdmissibleRoom(s, root);
    AimedVersion(s, root, t, evidence, order, section, k, update);
    forall other | other in rest ensures RequiredEvidence(t, evidence, other) && "" !in Required(t, other) {
      NothingRequired(t, other);
      assert other in Elements(sections);
    }
    if section != "toolchain" {
      assert "toolchain" in Elements(sections);
    }
    var now := Step(s, root, evidence, order, section);
    RestTrimmed(Marked(s, x), root, t, now, evidence, order, rest, section, "");
  }

  lemma RestTrimmed(start: Store, root: nat, t: Json, now: Store, evidence: Json, order: Order, rest: seq<string>, section: string, keep: string)
    requires Admissible(t) && Trimmed(start, root, KnownOf(t, keep), now)
    requires Covers(evidence, order, rest) && forall other :: other in rest ==> RequiredEvidence(t, evidence, other) && keep !in Required(t, other)
    requires Elements(rest) <= MERGED_SECTIONS + {PROVENANCE} && IsDict(now, Link(root)) && (section != "toolchain" ==> "toolchain" in rest)
    requires section == "toolchain" ==> HasVersion(now, root, Version(t))
    requires section != "toolchain" ==> RoomForToolchain(now, root)
    ensures var after := Sealed(Steps(now, root, evidence, order, rest), root);
            Trimmed(start, root, KnownOf(t, keep), after) && HasVersion(after, root, Version(t))
  {
    hide Trimmed, Required, Admissible, Version, Count, HasVersion, Step, Sealed, RoomForToolchain, RequiredEvidence;
    RequiredSteps(now, root, t, evidence, order, rest, keep);
    RequiredStepsVersion(now, root, t, evidence, order, rest);
    var merged := Steps(now, root, evidence, order, rest);
    SealedTrimmed(merged, root, KnownOf(t, keep));
    VersionStays(merged, root, KnownOf(t, keep), Sealed(merged, root));
    TrimmedTwice(start, root, KnownOf(t, keep), now, merged);
    TrimmedTwice(start, root, KnownOf(t, keep), merged, Sealed(merged, root));
  }

  // ----- the aimed evidence is accepted -----

  const PERMISSIVE := FieldRules(_ => true, _ => true, _ => true)

  lemma AimedField(template: Json, section: string, k: string, update: Json, other: string)
    ensures other in MERGED_SECTIONS ==>
              Field(AimedEvidence(template, section, k, update), other)
              == if other == section then AimedSection(template, section, k, update) else Obj(Required(template, other))
    ensures AimedEvidence(template, section, k, update).fields.Keys == MERGED_SECTIONS + {PROVENANCE}
  {
    hide Required, AimedSection;
  }

  /** The least that is required is still there. */
  lemma AimedKeeps(template: Json, section: string, k: string, update: Json, other: string, f: string)
    requires Admissible(template) && !Held(section, k) && other in MERGED_SECTIONS && f in Required(template, other)
    ensures var updates := Field(AimedEvidence(template, section, k, update), other);
            updates.Obj? && f in updates.fields && updates.fields[f] == Required(template, other)[f]
  {
    hide Required, Held, Admissible, AimedEvidence;
    AimedField(template, section, k, update, other);
    RequiredScalar(template, other, f, "");
  }

  lemma AimedChecked(template: Json, section: string, k: string, update: Json)
    requires Admissible(template) && !Held(section, k) && section in MERGED_SECTIONS
    ensures EvidenceChecked(template, AimedEvidence(template, section, k, update), PERMISSIVE)
  {
    var evidence := AimedEvidence(template, section, k, update);
    AimedCluster(template, section, k, update);
    AimedField(template, section, k, update, "toolchain");
    AimedKeeps(template, section, k, update, "toolchain", "minikube_version");
    AimedImages(template, section, k, update);
    hide AimedEvidence, ClusterAgrees, IdentityComplete, BaseImagesAgree, Held;
  }

  lemma RequiredCluster(template: Json, f: string)
    ensures f in PINNED_FIELDS ==> f in Required(template, "cluster") && Required(template, "cluster")[f] == Field(Field(template, "cluster"), f)
    ensures f in IDENTITY_FIELDS ==> f in Required(template, "cluster") && Required(template, "cluster")[f] == Text("x")
  {
  }

  lemma AimedCluster(template: Json, section: string, k: string, update: Json)
    requires Admissible(template) && !Held(section, k) && section in MERGED_SECTIONS
    ensures ClusterAgrees(template, AimedEvidence(template, section, k, update))
    ensures IdentityComplete(AimedEvidence(template, section, k, update))
  {
    hide AimedEvidence, Held, Required, AimedSection, Admissible;
    AimedField(template, section, k, update, "cluster");
    var updates := Field(AimedEvidence(template, section, k, update), "cluster");
    AimedClusterObj(template, section, k, update);
    forall f | f in PINNED_FIELDS ensures f in updates.fields && updates.fields[f] == Field(Field(template, "cluster"), f) {
      RequiredCluster(template, f);
      AimedKeeps(template, section, k, update, "cluster", f);
    }
    forall f | f in IDENTITY_FIELDS ensures f in updates.fields && updates.fields[f] == Text("x") {
      RequiredCluster(template, f);
      AimedKeeps(template, section, k, update, "cluster", f);
    }
    IdentityText(AimedEvidence(template, section, k, update));
  }

  lemma AimedClusterObj(template: Json, section: string, k: string, update: Json)
    ensures Field(AimedEvidence(template, section, k, update), "cluster").Obj?
  {
    hide Required;
    AimedField(template, section, k, update, "cluster");
  }

  lemma IdentityText(evidence: Json)
    requires Field(evidence, "cluster").Obj?
    requires forall f :: f in IDENTITY_FIELDS ==> f in Field(evidence, "cluster").fields && Field(evidence, "cluster").fields[f] == Text("x")
    ensures IdentityComplete(evidence)
  {
    assert "profile" in IDENTITY_FIELDS && "context" in IDENTITY_FIELDS;
  }

  lemma AimedImages(template: Json, section: string, k: string, update: Json)
    requires !Held(section, k) && Admissible(template)
    ensures BaseImagesAgree(template, AimedEvidence(template, section, k, update))
  {
    AimedField(template, section, k, update, "images");
    hide AimedEvidence;
    assert Required(template, "images") == map[];
  }

  lemma AimedMergeable(template: Json, section: string, k: string, update: Json, sections: seq<string>)
    requires Admissible(template) && section in MERGED_SECTIONS && Field(template, section).Obj? && ListsSections(sections)
    ensures AllMergeable(template, AimedEvidence(template, section, k, update), sections)
  {
    forall other | other in MERGED_SECTIONS ensures Mergeable(template, AimedEvidence(template, section, k, update), other) {
      AimedField(template, section, k, update, other);
    }
    hide AimedEvidence, Mergeable;
    SectionsMergeable(template, AimedEvidence(template, section, k, update), sections);
  }

  lemma LeafShown(s: Store, n: nat, f: string)
    requires IsDict(s, Link(n)) && f in s[n].fields && In(s, s[n].fields[f]) && Scalar(Read(s, s[n].fields[f]))
    ensures s[n].fields[f] == Leaf(Read(s, s[n].fields[f]))
  {
    if s[n].fields[f].Link? {
      LinkReads(s, s[n].fields[f]);
    }
  }

  lemma ClusterScalars(s: Store, root: nat)
    requires IsDict(s, Link(root)) && Admissible(Read(s, Link(root)))
    ensures "cluster" in s[root].fields && IsDict(s, s[root].fields["cluster"])
    ensures var t, n := Read(s, Link(root)), s[root].fields["cluster"].ref;
            && "minikube_version" in s[n].fields && s[n].fields["minikube_version"] == Leaf(Version(t))
            && "node_count" in s[n].fields && s[n].fields["node_count"] == Leaf(Count(t))
  {
    hide Read;
    ReadKeys(s, root);
    DictHolds(s, root, "cluster");
    var n := s[root].fields["cluster"].ref;
    ReadKeys(s, n);
    assert "minikube_version" in TEXT_CHOICES;
    DictHolds(s, n, "minikube_version");
    DictHolds(s, n, "node_count");
    LeafShown(s, n, "minikube_version");
    LeafShown(s, n, "node_count");
  }

  lemma LockVersions(s: Store, root: nat, x: nat, after: Store)
    requires IsDict(s, Link(root)) && Admissible(Read(s, Link(root))) && IsDict(s, Link(x)) && x != root
    requires var t := Read(s, Link(root)); Trimmed(Marked(s, x), root, KnownOf(t, ""), after) && HasVersion(after, root, Version(t))
    ensures VersionOk(Read(after, Link(root)), PERMISSIVE)
  {
    hide Read, Trimmed;
    var t := Read(s, Link(root));
    ClusterScalars(s, root);
    var n := s[root].fields["cluster"].ref;
    assert LaterNode(s[root], root, |s|);
    RootCells(s, root, KnownOf(t, ""), x, after, "cluster");
    KnownCells(s, root, KnownOf(t, ""), x, after, n);
    DictHolds(after, root, "cluster");
    DictHolds(after, root, "toolchain");
    ReadKeys(after, root);
    FieldOf(after, n, "minikube_version");
    FieldOf(after, n, "node_count");
    FieldOf(after, after[root].fields["toolchain"].ref, "minikube_version");
  }

  lemma RootCells(s: Store, root: nat, known: Known, x: nat, after: Store, j: string)
    requires IsDict(s, Link(root)) && IsDict(s, Link(x)) && x != root && Trimmed(Marked(s, x), root, known, after)
    requires j in s[root].fields && j !in REPLACED
    ensures IsDict(after, Link(root)) && j in after[root].fields && after[root].fields[j] == s[root].fields[j]
  {
    assert Marked(s, x)[root] == s[root];
  }

  lemma KnownCells(s: Store, root: nat, known: Known, x: nat, after: Store, n: nat)
    requires IsDict(s, Link(n)) && n != root && IsDict(s, Link(x)) && Trimmed(Marked(s, x), root, known, after)
    requires "minikube_version" in s[n].fields && s[n].fields["minikube_version"] == Leaf(known.version)
    requires "node_count" in s[n].fields && s[n].fields["node_count"] == Leaf(known.count)
    ensures IsDict(after, Link(n)) && "minikube_version" in after[n].fields && after[n].fields["minikube_version"] == Leaf(known.version)
    ensures "node_count" in after[n].fields && after[n].fields["node_count"] == Leaf(known.count)
  {
    hide Novel;
    assert TrimmedAt(Marked(s, x), known, after, n, "minikube_version");
    assert TrimmedAt(Marked(s, x), known, after, n, "node_count");
  }

  lemma FieldOf(s: Store, n: nat, f: string)
    requires IsDict(s, Link(n)) && f in s[n].fields && s[n].fields[f].Leaf?
    ensures Field(Read(s, Link(n)), f) == s[n].fields[f].json
  {
    hide Read;
    DictHolds(s, n, f);
    LeafReads(s, s[n].fields[f]);
  }

  // ----- the copy is exposed where the template is -----

  lemma FieldLike(s: Store, r: nat, k: string)
    requires IsDict(s, Link(r)) && k in s[r].fields
    ensures IsDict(Copied(s), Link(r + |s|)) && k in Copied(s)[r + |s|].fields
    ensures Copied(s)[r + |s|].fields[k] == Moved(s[r].fields[k], |s|)
    ensures Like(s, s[r].fields[k], Copied(s), Moved(s[r].fields[k], |s|), |s|)
  {
    hide Read, Parts, Writable, Unshared, Copied, Like;
    CopiedDict(s, r);
    DictHolds(s, r, k);
    CopyShows(s, s[r].fields[k]);
  }

  lemma SectionCopied(s: Store, root: nat, section: string, n: nat)
    requires IsDict(s, Link(root)) && n < |s|
    ensures IsDict(Copied(s), Link(root + |s|))
    ensures SectionAt(Copied(s), root + |s|, section, n + |s|) <==> SectionAt(s, root, section, n)
  {
    hide Copied;
    CopiedDict(s, root);
    if section in s[root].fields && s[root].fields[section].Link? {
      FieldLike(s, root, section);
      LikeShape(s, s[root].fields[section], Copied(s), Moved(s[root].fields[section], |s|), |s|);
    }
  }

  lemma LikeShape(s: Store, c: Cell, t: Store, m: Cell, far: nat)
    requires Like(s, c, t, m, far)
    ensures In(s, c) && In(t, m) && (IsDict(t, m) <==> IsDict(s, c))
  {
    hide Read, Parts, Writable, Unshared;
    ReadShape(s, c);
    ReadShape(t, m);
  }

  lemma ExposedCopied(s: Store, root: nat, x: nat)
    requires IsDict(s, Link(root)) && x < |s|
    ensures IsDict(Copied(s), Link(root + |s|))
    ensures Exposed(Copied(s), root + |s|, x + |s|) <==> Exposed(s, root, x)
  {
    hide Copied, Writable, SectionAt;
    CopiedDict(s, root);
    var copy, far, y := Copied(s), root + |s|, x + |s|;
    if section :| SectionAt(copy, far, section, y) {
      SectionCopied(s, root, section, x);
    }
    if section :| SectionAt(s, root, section, x) {
      SectionCopied(s, root, section, x);
      assert SectionAt(copy, far, section, y);
    }
    OpenCopied(s, root, x);
  }

  lemma OpenCopied(s: Store, root: nat, x: nat)
    requires IsDict(s, Link(root)) && IsDict(Copied(s), Link(root + |s|)) && x < |s|
    ensures Open(Copied(s), root + |s|, x + |s|) <==> Open(s, root, x)
  {
    hide Copied, Writable, SectionAt;
    var copy, far, y := Copied(s), root + |s|, x + |s|;
    if section, n: nat, k :| BelowAt(copy, far, section, n, k, y) {
      SectionBefore(s, root, section, n);
      BelowCopied(s, root, section, n - |s|, k, x);
      assert BelowAt(s, root, section, n - |s|, k, x);
    }
    if section, n: nat, k :| BelowAt(s, root, section, n, k, x) {
      SectionInside(s, root, section, n);
      BelowCopied(s, root, section, n, k, x);
      assert BelowAt(copy, far, section, n + |s|, k, y);
    }
  }

  lemma SectionInside(s: Store, root: nat, section: string, n: nat)
    requires IsDict(s, Link(root)) && SectionAt(s, root, section, n)
    ensures root < n < |s|
  {
    assert LaterNode(s[root], root, |s|);
  }

  lemma SectionBefore(s: Store, root: nat, section: string, n: nat)
    requires IsDict(s, Link(root)) && IsDict(Copied(s), Link(root + |s|)) && SectionAt(Copied(s), root + |s|, section, n)
    ensures |s| <= n < 2 * |s|
  {
    CopiedDict(s, root);
    assert LaterNode(s[root], root, |s|);
  }

  lemma BelowCopied(s: Store, root: nat, section: string, n: nat, k: string, x: nat)
    requires IsDict(s, Link(root)) && IsDict(Copied(s), Link(root + |s|)) && n < |s| && x < |s|
    ensures BelowAt(Copied(s), root + |s|, section, n + |s|, k, x + |s|) <==> BelowAt(s, root, section, n, k, x)
  {
    hide Copied, Writable, Held;
    SectionCopied(s, root, section, n);
    if IsDict(s, Link(n)) {
      CopiedDict(s, n);
      if k in s[n].fields {
        FieldLike(s, n, k);
        LikeForth(s, s[n].fields[k], Copied(s), Moved(s[n].fields[k], |s|), |s|);
        LikeBack(s, s[n].fields[k], Copied(s), Moved(s[n].fields[k], |s|), |s|);
      }
    }
  }

  /** Nothing that the cell consists of is exposed. */
  ghost predicate Unexposed(s: Store, root: nat, c: Cell)
    requires IsDict(s, Link(root)) && In(s, c)
  {
    forall x :: x in Parts(s, c) ==> !Exposed(s, root, x)
  }

  lemma UnexposedForth(s: Store, root: nat, c: Cell, m: Cell)
    requires IsDict(s, Link(root)) && IsDict(Copied(s), Link(root + |s|)) && Like(s, c, Copied(s), m, |s|)
    requires Unexposed(s, root, c)
    ensures Unexposed(Copied(s), root + |s|, m)
  {
    hide Copied, Parts, Exposed, Like;
    LikeBack(s, c, Copied(s), m, |s|);
    forall x | x in Parts(Copied(s), m) ensures !Exposed(Copied(s), root + |s|, x) {
      PartsInside(s, c, x - |s|);
      ExposedCopied(s, root, x - |s|);
    }
  }

  lemma UnexposedBack(s: Store, root: nat, c: Cell, m: Cell)
    requires IsDict(s, Link(root)) && IsDict(Copied(s), Link(root + |s|)) && Like(s, c, Copied(s), m, |s|)
    requires Unexposed(Copied(s), root + |s|, m)
    ensures Unexposed(s, root, c)
  {
    hide Copied, Parts, Exposed, Like;
    LikeForth(s, c, Copied(s), m, |s|);
    forall x | x in Parts(s, c) ensures !Exposed(s, root, x) {
      PartsInside(s, c, x);
      ExposedCopied(s, root, x);
    }
  }

  lemma UnexposedCopied(s: Store, root: nat, r: nat, k: string)
    requires IsDict(s, Link(root)) && IsDict(s, Link(r)) && k in s[r].fields && In(s, s[r].fields[k])
    ensures IsDict(Copied(s), Link(root + |s|)) && In(Copied(s), Moved(s[r].fields[k], |s|))
    ensures Unexposed(Copied(s), root + |s|, Moved(s[r].fields[k], |s|)) <==> Unexposed(s, root, s[r].fields[k])
  {
    hide Copied, Parts, Exposed, Like, Unexposed;
    var c := s[r].fields[k];
    CopiedDict(s, root);
    FieldLike(s, r, k);
    LikeShape(s, c, Copied(s), Moved(c, |s|), |s|);
    if Unexposed(s, root, c) {
      UnexposedForth(s, root, c, Moved(c, |s|));
    }
    if Unexposed(Copied(s), root + |s|, Moved(c, |s|)) {
      UnexposedBack(s, root, c, Moved(c, |s|));
    }
  }

  lemma PartsInside(s: Store, c: Cell, x: nat)
    requires In(s, c) && x in Parts(s, c)
    ensures x < |s|
  {
  }

  // ----- what accepted finalisations keep, exactly -----

  /** Every accepted finalisation, under whatever other rules, shows the same under these keys. */
  ghost predicate AlwaysKept(s: Store, template: nat, section: string, key: string)
    requires IsDict(s, Link(template))
  {
    forall evidence: Json, order: Order, sections: seq<string>, rules: FieldRules
      | Ordered(evidence, order) && ListsSections(sections) && MayAssemble(s, Link(template), evidence, order, sections, rules) ::
      Field(Field(Read(Assembled(s, template, evidence, order, sections), Link(template + |s|)), section), key)
      == Field(Field(Read(s, Link(template)), section), key)
  }

  lemma AssembledIsSealed(s: Store, template: nat, evidence: Json, order: Order, sections: seq<string>)
    requires IsDict(s, Link(template)) && Covers(evidence, order, sections)
    ensures IsDict(Copied(s), Link(template + |s|)) && Read(Copied(s), Link(template + |s|)) == Read(s, Link(template))
    ensures Assembled(s, template, evidence, order, sections)
            == Sealed(Steps(Copied(s), template + |s|, evidence, order, sections), template + |s|)
  {
    hide Read, Steps, Sealed;
    CopyShows(s, Link(template));
    LikeReads(s, Link(template), Copied(s), Link(template + |s|), |s|);
  }

  /** The images of a valid template, as a node with records. */
  lemma ImagesAt(s: Store, root: nat, role: string) returns (i: nat)
    requires IsDict(s, Link(root)) && StaticShape(Read(s, Link(root))) && role in BASE_ROLES
    ensures SectionAt(s, root, "images", i) && root < i && role in s[i].fields && IsDict(s, s[i].fields[role])
    ensures Field(Field(Read(s, Link(root)), "images"), role) == Read(s, s[i].fields[role])
  {
    hide Read;
    ReadKeys(s, root);
    DictHolds(s, root, "images");
    i := s[root].fields["images"].ref;
    ReadKeys(s, i);
    DictHolds(s, i, role);
  }

  lemma AcceptedKeepsBase(s: Store, root: nat, evidence: Json, order: Order, sections: seq<string>, rules: FieldRules, role: string, i: nat)
    requires IsDict(s, Link(root)) && Covers(evidence, order, sections) && ListsSections(sections)
    requires EvidenceChecked(Read(s, Link(root)), evidence, rules) && AllMergeable(Read(s, Link(root)), evidence, sections)
    requires SectionAt(s, root, "images", i) && role in BASE_ROLES && role in s[i].fields && IsDict(s, s[i].fields[role])
    requires Unexposed(s, root, s[i].fields[role])
    ensures Field(Field(SealedLock(s, root, evidence, order, sections), "images"), role) == Read(s, s[i].fields[role])
  {
    hide Read, Parts, Exposed, Steps, Sealed, EvidenceChecked, AllMergeable;
    var slot := Slot(i, role);
    PartIsOwnDict(s, s[i].fields[role]);
    BaseGuarded(s, root, i, role);
    FinalizationSteady(s, root, slot, evidence, order, sections, rules);
    SlotShown(s, root, "images", slot, Sealed(Steps(s, root, evidence, order, sections), root));
  }

  lemma PartIsOwnDict(s: Store, c: Cell)
    requires IsDict(s, c)
    ensures In(s, c) && c.ref in Parts(s, c)
  {
  }

  lemma SlotChanges(s: Store, root: nat, known: Known, x: nat, after: Store, n: nat, k: string)
    requires known.keep == ""
    requires IsDict(s, Link(root)) && IsDict(s, Link(x)) && x != root && Trimmed(Marked(s, x), root, known, after)
    requires IsDict(s, Link(n)) && root < n && k in s[n].fields && In(s, s[n].fields[k]) && x in Parts(s, s[n].fields[k])
    ensures IsDict(after, Link(n)) && k in after[n].fields && In(after, after[n].fields[k])
    ensures Read(after, after[n].fields[k]) != Read(s, s[n].fields[k])
  {
    hide Trimmed, Marked, Read, Parts;
    var c := s[n].fields[k];
    assert LaterNode(s[n], n, |s|);
    PartsAfter(s, c, n);
    TrimmedFacts(s, root, known, x, after, n);
    assert LaterNode(after[n], n, |after|);
    if after[n].fields[k] == c {
      ChangeShows(s, root, known, x, after, c);
    } else {
      PartIsOwn(s, c);
      LinkReads(s, c);
      LeafReads(after, after[n].fields[k]);
    }
  }

  lemma SectionSlotChanges(s: Store, root: nat, known: Known, x: nat, after: Store, section: string, n: nat, k: string)
    requires known.keep == ""
    requires IsDict(s, Link(root)) && IsDict(s, Link(x)) && x != root && Trimmed(Marked(s, x), root, known, after)
    requires SectionAt(s, root, section, n) && root < n && section !in REPLACED
    requires k in s[n].fields && In(s, s[n].fields[k]) && x in Parts(s, s[n].fields[k])
    ensures IsDict(after, Link(root)) && Field(Field(Read(after, Link(root)), section), k) != Read(s, s[n].fields[k])
  {
    hide Trimmed, Marked, Read, Parts;
    SlotChanges(s, root, known, x, after, n, k);
    RootCells(s, root, known, x, after, section);
    DictHolds(after, root, section);
    DictHolds(after, n, k);
  }

  /** Accepted evidence that changes an exposed mapping. */
  lemma ExposedAccepted(s: Store, root: nat, x: nat) returns (evidence: Json, order: Order, sections: seq<string>)
    requires IsDict(s, Link(root)) && Exposed(s, root, x) && Admissible(Read(s, Link(root)))
    ensures ListsSections(sections) && Covers(evidence, order, sections) && IsDict(s, Link(x)) && x != root
    ensures EvidenceChecked(Read(s, Link(root)), evidence, PERMISSIVE) && AllMergeable(Read(s, Link(root)), evidence, sections)
    ensures var t, after := Read(s, Link(root)), Sealed(Steps(s, root, evidence, order, sections), root);
            Trimmed(Marked(s, x), root, KnownOf(t, ""), after) && VersionOk(Read(after, Link(root)), PERMISSIVE)
  {
    hide Trimmed, Marked, Read, Admissible, Steps, Sealed, Exposed, HasVersion, EvidenceChecked, AllMergeable, VersionOk, AimedEvidence, Held, Covers, Version, Count;
    var t := Read(s, Link(root));
    var section, k, update;
    evidence, order, sections, section, k, update := ExposedWritten(s, root, x);
    var n: nat :| SectionAt(s, root, section, n);
    SectionMapping(s, root, section, n);
    AimedChecked(t, section, k, update);
    AimedMergeable(t, section, k, update, sections);
    LockVersions(s, root, x, Sealed(Steps(s, root, evidence, order, sections), root));
  }

  lemma SectionMapping(s: Store, root: nat, section: string, n: nat)
    requires IsDict(s, Link(root)) && SectionAt(s, root, section, n)
    ensures section in MERGED_SECTIONS && Field(Read(s, Link(root)), section).Obj?
  {
    hide Read;
    DictHolds(s, root, section);
    ReadKeys(s, n);
  }

  lemma ExposedSlotChanges(s: Store, root: nat, i: nat, role: string) returns (evidence: Json, order: Order, sections: seq<string>)
    requires IsDict(s, Link(root)) && Admissible(Read(s, Link(root))) && SectionAt(s, root, "images", i) && role in s[i].fields
    requires In(s, s[i].fields[role]) && !Unexposed(s, root, s[i].fields[role])
    ensures ListsSections(sections) && Covers(evidence, order, sections)
    ensures EvidenceChecked(Read(s, Link(root)), evidence, PERMISSIVE) && AllMergeable(Read(s, Link(root)), evidence, sections)
    ensures var lock := SealedLock(s, root, evidence, order, sections);
            VersionOk(lock, PERMISSIVE) && Field(Field(lock, "images"), role) != Read(s, s[i].fields[role])
  {
    hide Trimmed, Marked, Read, Parts, Admissible, Steps, Sealed, Exposed, EvidenceChecked, AllMergeable, VersionOk, Covers, Version, Count;
    var x :| x in Parts(s, s[i].fields[role]) && Exposed(s, root, x);
    evidence, order, sections := ExposedAccepted(s, root, x);
    SectionInside(s, root, "images", i);
    var t, after := Read(s, Link(root)), Sealed(Steps(s, root, evidence, order, sections), root);
    SectionSlotChanges(s, root, KnownOf(t, ""), x, after, "images", i, role);
  }

  lemma CopyValue(s: Store, template: nat)
    requires IsDict(s, Link(template))
    ensures IsDict(Copied(s), Link(template + |s|)) && Read(Copied(s), Link(template + |s|)) == Read(s, Link(template))
  {
    assert Moved(Link(template), |s|) == Link(template + |s|) && In(s, Link(template));
    hide *;
    CopiedDict(s, template);
    CopyShows(s, Link(template));
    LikeReads(s, Link(template), Copied(s), Link(template + |s|), |s|);
  }

  lemma ImagesCopied(s: Store, template: nat, i: nat, role: string)
    requires IsDict(s, Link(template)) && SectionAt(s, template, "images", i) && role in s[i].fields && In(s, s[i].fields[role])
    ensures var copy, root := Copied(s), template + |s|;
            && IsDict(copy, Link(root)) && Read(copy, Link(root)) == Read(s, Link(template))
            && SectionAt(copy, root, "images", i + |s|) && role in copy[i + |s|].fields
            && var m := copy[i + |s|].fields[role];
            && In(copy, m) && Read(copy, m) == Read(s, s[i].fields[role])
            && (IsDict(copy, m) <==> IsDict(s, s[i].fields[role]))
            && (Unexposed(copy, root, m) <==> Unexposed(s, template, s[i].fields[role]))
  {
    hide Read, Parts, Copied, Unexposed, Like;
    SectionInside(s, template, "images", i);
    UnexposedCopied(s, template, i, role);
    CopyValue(s, template);
    FieldLike(s, i, role);
    LikeReads(s, s[i].fields[role], Copied(s), Moved(s[i].fields[role], |s|), |s|);
    LikeShape(s, s[i].fields[role], Copied(s), Moved(s[i].fields[role], |s|), |s|);
    SectionCopied(s, template, "images", i);
  }

  /** Accepted evidence for a template in which something of a base record is exposed, and what it does. */
  lemma ExposedBaseChanges(s: Store, template: nat, i: nat, role: string) returns (evidence: Json, order: Order, sections: seq<string>)
    requires IsDict(s, Link(template)) && Admissible(Read(s, Link(template))) && SectionAt(s, template, "images", i)
    requires role in s[i].fields && In(s, s[i].fields[role]) && !Unexposed(s, template, s[i].fields[role])
    ensures Ordered(evidence, order) && ListsSections(sections) && MayAssemble(s, Link(template), evidence, order, sections, PERMISSIVE)
    ensures Covers(evidence, order, sections)
    ensures Field(Field(Read(Assembled(s, template, evidence, order, sections), Link(template + |s|)), "images"), role) != Read(s, s[i].fields[role])
  {
    hide Read, Parts, Admissible, Copied, Steps, Sealed, Assembled, EvidenceChecked, AllMergeable, VersionOk, Unexposed, SectionAt;
    ImagesCopied(s, template, i, role);
    evidence, order, sections := ExposedSlotChanges(Copied(s), template + |s|, i + |s|, role);
    AssembledIsSealed(s, template, evidence, order, sections);
    assert PERMISSIVE.provenance(Read(Assembled(s, template, evidence, order, sections), Link(template + |s|)));
  }

  ghost predicate LockHas(s: Store, template: nat, evidence: Json, order: Order, sections: seq<string>, section: string, key: string, json: Json)
    requires IsDict(s, Link(template)) && Covers(evidence, order, sections)
  {
    Field(Field(Read(Assembled(s, template, evidence, order, sections), Link(template + |s|)), section), key) == json
  }

  lemma UnexposedBaseKept(s: Store, template: nat, i: nat, role: string,
                          evidence: Json, order: Order, sections: seq<string>, rules: FieldRules)
    requires IsDict(s, Link(template)) && Covers(evidence, order, sections) && ListsSections(sections)
    requires EvidenceChecked(Read(s, Link(template)), evidence, rules) && AllMergeable(Read(s, Link(template)), evidence, sections)
    requires SectionAt(s, template, "images", i) && role in BASE_ROLES && role in s[i].fields && IsDict(s, s[i].fields[role])
    requires Unexposed(s, template, s[i].fields[role])
    ensures LockHas(s, template, evidence, order, sections, "images", role, Read(s, s[i].fields[role]))
  {
    hide Read, Parts, Copied, Steps, Sealed, Assembled, EvidenceChecked, AllMergeable, Unexposed, Covers, ListsSections;
    ImagesCopied(s, template, i, role);
    AcceptedKeepsBase(Copied(s), template + |s|, evidence, order, sections, rules, role, i + |s|);
    AssembledIsSealed(s, template, evidence, order, sections);
  }

  lemma AcceptedMeans(s: Store, template: nat, evidence: Json, order: Order, sections: seq<string>, rules: FieldRules)
    requires IsDict(s, Link(template)) && Ordered(evidence, order) && ListsSections(sections)
    requires MayAssemble(s, Link(template), evidence, order, sections, rules)
    ensures Covers(evidence, order, sections) && EvidenceChecked(Read(s, Link(template)), evidence, rules)
    ensures AllMergeable(Read(s, Link(template)), evidence, sections)
  {
    hide Read, Assembled, EvidenceChecked, AllMergeable, VersionOk;
    CheckedShapes(Read(s, Link(template)), evidence, rules);
  }

  /** Nothing of the record under this role is exposed. */
  ghost predicate BaseUnexposed(s: Store, template: nat, role: string)
    requires IsDict(s, Link(template))
  {
    forall i: nat :: SectionAt(s, template, "images", i) && role in s[i].fields && In(s, s[i].fields[role]) ==> Unexposed(s, template, s[i].fields[role])
  }

  lemma AcceptedAdmissible(s: Store, template: nat, evidence: Json, order: Order, sections: seq<string>, rules: FieldRules)
    requires IsDict(s, Link(template)) && Counted(Read(s, Link(template)))
    requires Ordered(evidence, order) && ListsSections(sections) && MayAssemble(s, Link(template), evidence, order, sections, rules)
    ensures Admissible(Read(s, Link(template)))
  {
    hide Read, Assembled, VersionOk, ClusterAgrees, IdentityComplete, BaseImagesAgree;
    var t := Read(s, Link(template));
    assert "toolchain" in Elements(sections);
    assert "minikube_version" in TEXT_CHOICES;
    assert Mergeable(t, evidence, "toolchain");
  }

  /**
   Every accepted finalisation of a template keeps a base image exactly when evidence is never accepted, or
   no mapping the base record consists of is reached from a merged section by keys that accepted evidence may fill.
   */
  lemma BaseImagesKeptExactly(s: Store, template: nat, role: string)
    requires IsDict(s, Link(template)) && Counted(Read(s, Link(template))) && role in BASE_ROLES
    ensures AlwaysKept(s, template, "images", role) <==> (Admissible(Read(s, Link(template))) ==> BaseUnexposed(s, template, role))
  {
    if AlwaysKept(s, template, "images", role) && Admissible(Read(s, Link(template))) {
      KeptIsUnexposed(s, template, role);
    }
    if BaseUnexposed(s, template, role) {
      UnexposedIsKept(s, template, role);
    } else if !Admissible(Read(s, Link(template))) {
      NeverAccepted(s, template);
    }
  }

  lemma KeptIsUnexposed(s: Store, template: nat, role: string)
    requires IsDict(s, Link(template)) && Admissible(Read(s, Link(template))) && role in BASE_ROLES && AlwaysKept(s, template, "images", role)
    ensures BaseUnexposed(s, template, role)
  {
    hide Read, Parts, Admissible, Assembled, MayAssemble, Unexposed, ListsSections, Covers, Ordered;
    forall i: nat | SectionAt(s, template, "images", i) && role in s[i].fields && In(s, s[i].fields[role])
      ensures Unexposed(s, template, s[i].fields[role])
    {
      if !Unexposed(s, template, s[i].fields[role]) {
        var evidence, order, sections := ExposedBaseChanges(s, template, i, role);
        DictHolds(s, template, "images");
        DictHolds(s, i, role);
      }
    }
  }

  /** Whatever its node count, a template keeps a base image of which nothing is exposed. */
  lemma UnexposedIsKept(s: Store, template: nat, role: string)
    requires IsDict(s, Link(template)) && role in BASE_ROLES && BaseUnexposed(s, template, role)
    ensures AlwaysKept(s, template, "images", role)
  {
    hide Read, Parts, Assembled, MayAssemble, Unexposed, ListsSections, Covers, Ordered, SectionAt, EvidenceChecked, AllMergeable;
    forall evidence: Json, order: Order, sections: seq<string>, rules: FieldRules
      | Ordered(evidence, order) && ListsSections(sections) && MayAssemble(s, Link(template), evidence, order, sections, rules)
      ensures Covers(evidence, order, sections)
      ensures Field(Field(Read(Assembled(s, template, evidence, order, sections), Link(template + |s|)), "images"), role)
              == Field(Field(Read(s, Link(template)), "images"), role)
    {
      AcceptedMeans(s, template, evidence, order, sections, rules);
      CheckedStatic(Read(s, Link(template)), evidence, rules);
      var i := ImagesAt(s, template, role);
      RecordUnexposed(s, template, i, role);
      UnexposedBaseKept(s, template, i, role, evidence, order, sections, rules);
    }
  }

  lemma CheckedStatic(template: Json, evidence: Json, rules: FieldRules)
    requires EvidenceChecked(template, evidence, rules)
    ensures StaticShape(template)
  {
  }

  lemma NeverAccepted(s: Store, template: nat)
    requires IsDict(s, Link(template)) && Counted(Read(s, Link(template))) && !Admissible(Read(s, Link(template)))
    ensures forall evidence: Json, order: Order, sections: seq<string>, rules: FieldRules
              | Ordered(evidence, order) && ListsSections(sections) :: !MayAssemble(s, Link(template), evidence, order, sections, rules)
  {
    hide Read, Counted, Admissible, MayAssemble, ListsSections, Ordered;
    forall evidence: Json, order: Order, sections: seq<string>, rules: FieldRules | Ordered(evidence, order) && ListsSections(sections)
      ensures !MayAssemble(s, Link(template), evidence, order, sections, rules)
    {
      if MayAssemble(s, Link(template), evidence, order, sections, rules) {
        AcceptedAdmissible(s, template, evidence, order, sections, rules);
      }
    }
  }

  lemma RecordUnexposed(s: Store, template: nat, i: nat, role: string)
    requires IsDict(s, Link(template)) && BaseUnexposed(s, template, role)
    requires SectionAt(s, template, "images", i) && role in s[i].fields && IsDict(s, s[i].fields[role])
    ensures Unexposed(s, template, s[i].fields[role])
  {
    hide Unexposed;
  }

  // ----- keys that finalisation does not merge -----

  ghost predicate AlwaysShown(s: Store, template: nat, key: string)
    requires IsDict(s, Link(template))
  {
    forall evidence: Json, order: Order, sections: seq<string>, rules: FieldRules
      | Ordered(evidence, order) && ListsSections(sections) && MayAssemble(s, Link(template), evidence, order, sections, rules) ::
      Field(Read(Assembled(s, template, evidence, order, sections), Link(template + |s|)), key) == Field(Read(s, Link(template)), key)
  }

  lemma AcceptedKeepsRoot(s: Store, root: nat, evidence: Json, order: Order, sections: seq<string>, rules: FieldRules, j: string)
    requires IsDict(s, Link(root)) && Covers(evidence, order, sections) && ListsSections(sections)
    requires EvidenceChecked(Read(s, Link(root)), evidence, rules) && AllMergeable(Read(s, Link(root)), evidence, sections)
    requires j in s[root].fields && j !in REPLACED && In(s, s[root].fields[j]) && Unexposed(s, root, s[root].fields[j])
    ensures Field(SealedLock(s, root, evidence, order, sections), j) == Read(s, s[root].fields[j])
  {
    hide Read, Parts, Exposed, Steps, Sealed, EvidenceChecked, AllMergeable;
    var nowhere := Slot(root, "");
    FinalizationSteady(s, root, nowhere, evidence, order, sections, rules);
    RootShown(s, root, nowhere, Sealed(Steps(s, root, evidence, order, sections), root), j);
  }

  lemma ExposedRootChanges(s: Store, root: nat, j: string) returns (evidence: Json, order: Order, sections: seq<string>)
    requires IsDict(s, Link(root)) && Admissible(Read(s, Link(root))) && j in s[root].fields && j !in REPLACED
    requires In(s, s[root].fields[j]) && !Unexposed(s, root, s[root].fields[j])
    ensures ListsSections(sections) && Covers(evidence, order, sections)
    ensures EvidenceChecked(Read(s, Link(root)), evidence, PERMISSIVE) && AllMergeable(Read(s, Link(root)), evidence, sections)
    ensures VersionOk(SealedLock(s, root, evidence, order, sections), PERMISSIVE)
    ensures Field(SealedLock(s, root, evidence, order, sections), j) != Read(s, s[root].fields[j])
  {
    hide Trimmed, Marked, Read, Parts, Admissible, Steps, Sealed, Exposed, EvidenceChecked, AllMergeable, VersionOk, Covers, Version, Count;
    var c := s[root].fields[j];
    var x :| x in Parts(s, c) && Exposed(s, root, x);
    evidence, order, sections := ExposedAccepted(s, root, x);
    var t, after := Read(s, Link(root)), Sealed(Steps(s, root, evidence, order, sections), root);
    assert LaterNode(s[root], root, |s|);
    PartsAfter(s, c, root);
    ChangeShows(s, root, KnownOf(t, ""), x, after, c);
    RootCells(s, root, KnownOf(t, ""), x, after, j);
    DictHolds(after, root, j);
  }

  lemma RootCopied(s: Store, template: nat, j: string)
    requires IsDict(s, Link(template)) && j in s[template].fields && In(s, s[template].fields[j])
    ensures var copy, root := Copied(s), template + |s|;
            && IsDict(copy, Link(root)) && Read(copy, Link(root)) == Read(s, Link(template)) && j in copy[root].fields
            && var m := copy[root].fields[j];
            && In(copy, m) && Read(copy, m) == Read(s, s[template].fields[j])
            && (Unexposed(copy, root, m) <==> Unexposed(s, template, s[template].fields[j]))
  {
    hide Read, Parts, Copied, Unexposed, Like;
    UnexposedCopied(s, template, template, j);
    CopyValue(s, template);
    FieldLike(s, template, j);
    LikeReads(s, s[template].fields[j], Copied(s), Moved(s[template].fields[j], |s|), |s|);
  }

  /**
   Every accepted finalisation shows the same under a key that is neither merged nor replaced exactly when
   evidence is never accepted, or no mapping under the key is reached from a merged section by keys that
   accepted evidence may fill.
   */
  lemma OtherKeysKeptExactly(s: Store, template: nat, j: string)
    requires IsDict(s, Link(template)) && Counted(Read(s, Link(template)))
    requires j in s[template].fields && j !in MERGED_SECTIONS && j !in REPLACED && In(s, s[template].fields[j])
    ensures AlwaysShown(s, template, j) <==> (Admissible(Read(s, Link(template))) ==> Unexposed(s, template, s[template].fields[j]))
  {
    if AlwaysShown(s, template, j) && Admissible(Read(s, Link(template))) {
      ShownIsUnexposed(s, template, j);
    }
    if Unexposed(s, template, s[template].fields[j]) {
      UnexposedIsShown(s, template, j);
    } else if !Admissible(Read(s, Link(template))) {
      NeverAccepted(s, template);
    }
  }

  lemma ExposedKeyChanges(s: Store, template: nat, j: string) returns (evidence: Json, order: Order, sections: seq<string>)
    requires IsDict(s, Link(template)) && Admissible(Read(s, Link(template))) && j in s[template].fields && j !in REPLACED
    requires In(s, s[template].fields[j]) && !Unexposed(s, template, s[template].fields[j])
    ensures Ordered(evidence, order) && ListsSections(sections) && MayAssemble(s, Link(template), evidence, order, sections, PERMISSIVE)
    ensures Covers(evidence, order, sections)
    ensures Field(Read(Assembled(s, template, evidence, order, sections), Link(template + |s|)), j) != Read(s, s[template].fields[j])
  {
    hide Read, Parts, Admissible, Copied, Steps, Sealed, Assembled, EvidenceChecked, AllMergeable, VersionOk, Unexposed;
    RootCopied(s, template, j);
    evidence, order, sections := ExposedRootChanges(Copied(s), template + |s|, j);
    AssembledIsSealed(s, template, evidence, order, sections);
    assert PERMISSIVE.provenance(Read(Assembled(s, template, evidence, order, sections), Link(template + |s|)));
  }

  lemma ShownIsUnexposed(s: Store, template: nat, j: string)
    requires IsDict(s, Link(template)) && Admissible(Read(s, Link(template))) && AlwaysShown(s, template, j)
    requires j in s[template].fields && j !in REPLACED && In(s, s[template].fields[j])
    ensures Unexposed(s, template, s[template].fields[j])
  {
    hide Read, Parts, Admissible, Assembled, MayAssemble, Unexposed, ListsSections, Covers, Ordered;
    DictHolds(s, template, j);
    if !Unexposed(s, template, s[template].fields[j]) {
      var evidence, order, sections := ExposedKeyChanges(s, template, j);
    }
  }

  /** Whatever its node count, a template keeps a key under which nothing is exposed. */
  lemma UnexposedIsShown(s: Store, template: nat, j: string)
    requires IsDict(s, Link(template))
    requires j in s[template].fields && j !in REPLACED && In(s, s[template].fields[j])
    requires Unexposed(s, template, s[template].fields[j])
    ensures AlwaysShown(s, template, j)
  {
    hide Read, Parts, Copied, Steps, Sealed, Assembled, MayAssemble, Unexposed, ListsSections, Covers, Ordered,
         EvidenceChecked, AllMergeable;
    forall evidence: Json, order: Order, sections: seq<string>, rules: FieldRules
      | Ordered(evidence, order) && ListsSections(sections) && MayAssemble(s, Link(template), evidence, order, sections, rules)
      ensures Covers(evidence, order, sections)
      ensures Field(Read(Assembled(s, template, evidence, order, sections), Link(template + |s|)), j) == Field(Read(s, Link(template)), j)
    {
      AcceptedMeans(s, template, evidence, order, sections, rules);
      RootCopied(s, template, j);
      AcceptedKeepsRoot(Copied(s), template + |s|, evidence, order, sections, rules, j);
      AssembledIsSealed(s, template, evidence, order, sections);
      DictHolds(s, template, j);
    }
  }

  // ----- pinned choices -----

  ghost predicate SectionElsewhere(s: Store, root: nat, n: nat)
    requires IsDict(s, Link(root))
  {
    exists other :: other != "cluster" && SectionAt(s, root, other, n)
  }

  /** The cluster is reached from a merged section in a second way, by keys that accepted evidence may fill. */
  ghost predicate ClusterExposed(s: Store, root: nat, n: nat)
    requires IsDict(s, Link(root))
  {
    Open(s, root, n) || SectionElsewhere(s, root, n)
  }

  /** On the copy: a pinned choice in a cluster that is reached in one way only. */
  lemma AcceptedKeepsPinned(s: Store, root: nat, evidence: Json, order: Order, sections: seq<string>, rules: FieldRules, n: nat, f: string)
    requires IsDict(s, Link(root)) && Covers(evidence, order, sections) && ListsSections(sections)
    requires EvidenceChecked(Read(s, Link(root)), evidence, rules) && AllMergeable(Read(s, Link(root)), evidence, sections)
    requires SectionAt(s, root, "cluster", n) && f in PINNED_FIELDS && f in s[n].fields && s[n].fields[f].Leaf? && In(s, s[n].fields[f])
    requires !ClusterExposed(s, root, n)
    ensures Field(Field(SealedLock(s, root, evidence, order, sections), "cluster"), f) == s[n].fields[f].json
  {
    hide Read, Parts, Open, Steps, Sealed, EvidenceChecked, AllMergeable;
    var slot := Slot(n, f);
    assert Guarded(s, root, "cluster", slot);
    FinalizationSteady(s, root, slot, evidence, order, sections, rules);
    LeafReads(s, s[n].fields[f]);
    SlotShown(s, root, "cluster", slot, Sealed(Steps(s, root, evidence, order, sections), root));
  }

  /** Merging scalars changes one node. */
  lemma {:induction false} ScalarsOnly(s: Store, r: nat, updates: Json, order: Order, n: nat)
    requires IsDict(s, Link(r)) && updates.Obj? && Ordered(updates, order) && n <= |order.keys|
    requires forall k :: k in updates.fields ==> !updates.fields[k].Obj?
    ensures forall x | 0 <= x < |s| && x != r :: MergeKeys(s, r, updates, order, n)[x] == s[x]
    decreases n
  {
    if n > 0 {
      ScalarsOnly(s, r, updates, order, n - 1);
      var key := order.keys[n - 1];
      assert key in Elements(order.keys);
      LeafMerge(MergeKeys(s, r, updates, order, n - 1), r, key, updates.fields[key], order.inner[key]);
    }
  }

  lemma {:induction false} WritableStays(s: Store, after: Store, c: Cell, n: nat)
    requires In(s, c) && |s| <= |after| && n in Writable(s, c) && IsDict(after, Link(n))
    requires forall x | 0 <= x < |s| && x != n :: after[x] == s[x]
    ensures In(after, c) && n in Writable(after, c)
    decreases Height(s, c)
  {
    if c.ref == n {
      OwnPart(after, c);
    } else {
      var k :| k in s[c.ref].fields && n in Writable(s, s[c.ref].fields[k]);
      DictHolds(s, c.ref, k);
      WritableStays(s, after, s[c.ref].fields[k], n);
      DictHolds(after, c.ref, k);
    }
  }

  lemma WritableLater(s: Store, c: Cell, n: nat)
    requires In(s, c) && n in Writable(s, c)
    ensures c.Link? && c.ref <= n
  {
  }

  lemma PinnedFree(section: string, f: string)
    requires f in PINNED_FIELDS && section != "cluster"
    ensures !Held(section, f)
    ensures forall template :: f !in Required(template, section)
  {
  }

  /** After the cluster was merged, evidence in another section that still writes to it. */
  lemma ClusterKey(s: Store, now: Store, root: nat, n: nat, f: string, json: Json)
      returns (section: string, m: nat, k: string, update: Json, order: Order)
    requires IsDict(s, Link(root)) && SectionAt(s, root, "cluster", n) && ClusterExposed(s, root, n) && f in PINNED_FIELDS && !json.Obj?
    requires |s| <= |now| && IsDict(now, Link(n)) && forall x | 0 <= x < |s| && x != n :: now[x] == s[x]
    ensures IsDict(now, Link(root)) && section != "cluster" && SectionAt(now, root, section, m) && !Held(section, k) && Ordered(update, order)
    ensures MergeKey(now, m, k, update, order) == WrittenTo(now, n, f, json)
  {
    hide Writable, Held, Required;
    SectionInside(s, root, "cluster", n);
    if other :| other != "cluster" && SectionAt(s, root, other, n) {
      section, m, k, update, order := other, n, f, json, NO_KEYS;
      PinnedFree(section, f);
      LeafMerge(now, n, f, json, order);
    } else {
      section, m, k :| BelowAt(s, root, section, m, k, n);
      SectionInside(s, root, section, m);
      DictHolds(s, m, k);
      var c := s[m].fields[k];
      WritableLater(s, c, n);
      WritableStays(s, now, c, n);
      WritableIsDict(now, c);
      update, order := Aim(now, c.ref, n, f, json);
    }
  }

  /** The copy after the cluster was merged with the least that is required. */
  ghost function AfterCluster(s: Store, template: Json, n: nat): (after: Store)
    requires IsDict(s, Link(n))
  {
    MergeInto(s, n, Obj(Required(template, "cluster")), LeastOrder(template, "cluster"))
  }

  lemma ClusterMerged(s: Store, root: nat, template: Json, n: nat)
    requires IsDict(s, Link(root)) && IsDict(s, Link(n)) && root < n && Admissible(template)
    ensures var now := AfterCluster(s, template, n);
            && |s| <= |now| && IsDict(now, Link(n)) && (forall x | 0 <= x < |s| && x != n :: now[x] == s[x])
            && Trimmed(s, root, KnownOf(template, ""), now)
  {
    hide Required, Admissible, Version, Count, Trimmed;
    var updates, order := Obj(Required(template, "cluster")), LeastOrder(template, "cluster");
    KeysListed(updates, order);
    NothingRequired(template, "cluster");
    forall k | k in updates.fields ensures !updates.fields[k].Obj? && WrittenAs(k, Leaf(updates.fields[k]), KnownOf(template, "")) {
      RequiredScalar(template, "cluster", k, "");
    }
    assert forall j :: 0 <= j < |order.keys| ==> order.keys[j] in Elements(order.keys);
    ScalarsOnly(s, n, updates, order, |order.keys|);
    TrimmedKeys(s, root, KnownOf(template, ""), n, updates, order, 0, |order.keys|);
  }

  lemma SectionsAfterCluster(section: string) returns (sections: seq<string>, rest: seq<string>)
    requires section in MERGED_SECTIONS && section != "cluster"
    ensures sections == ["cluster", section] + rest && ListsSections(sections)
    ensures section !in rest && "cluster" !in rest && Elements(rest) <= MERGED_SECTIONS + {PROVENANCE}
    ensures section != "toolchain" ==> "toolchain" in rest
  {
    var keys := MERGED_SECTIONS + {PROVENANCE};
    var others := keys - {"cluster"};
    var tail := SectionFirst(others, section);
    SectionFirstLists(others, section);
    rest := tail[1..];
    sections := ["cluster", section] + rest;
    assert tail == [section] + rest && sections == ["cluster"] + tail;
    ConsDistinct("cluster", tail, others);
    assert {"cluster"} + others == keys;
    assert forall k :: k in rest ==> k in tail;
    assert forall k :: k in tail ==> k in Elements(tail);
    assert "toolchain" in Elements(tail);
  }

  lemma ConsDistinct(first: string, tail: seq<string>, others: set<string>)
    requires Distinct(tail) && Elements(tail) == others && first !in others
    ensures Distinct([first] + tail) && Elements([first] + tail) == {first} + others
  {
    forall j | 1 <= j < |[first] + tail| ensures ([first] + tail)[j] == tail[j - 1] && tail[j - 1] in Elements(tail) {
    }
    assert forall x :: x in tail ==> x in [first] + tail;
  }

  lemma TwoSteps(s: Store, root: nat, evidence: Json, order: Order, a: string, b: string, rest: seq<string>)
    requires IsDict(s, Link(root)) && Covers(evidence, order, [a, b] + rest)
    ensures Covers(evidence, order, [a]) && Covers(evidence, order, [b]) && Covers(evidence, order, rest)
    ensures Steps(s, root, evidence, order, [a, b] + rest)
            == Steps(Step(Step(s, root, evidence, order, a), root, evidence, order, b), root, evidence, order, rest)
  {
    hide Step;
    var sections := [a, b] + rest;
    assert a in Elements(sections) && b in Elements(sections) && Elements([a]) == {a} && Elements([b]) == {b};
    assert Elements(rest) <= Elements(sections) && sections[1..] == [b] + rest && sections[1..][1..] == rest && ([b] + rest)[0] == b;
    assert Elements([b] + rest) <= Elements(sections);
    var now := Step(s, root, evidence, order, a);
    assert Steps(s, root, evidence, order, sections) == Steps(now, root, evidence, order, [b] + rest);
    assert ([b] + rest)[1..] == rest;
  }

  /** A value that is not the pinned one, and counts as well. */
  function Another(json: Json): Json {
    if json.Number? then Number(json.number + 1) else Null
  }

  lemma ClusterFirst(s: Store, root: nat, n: nat, template: Json, evidence: Json, order: Order)
    requires IsDict(s, Link(root)) && SectionAt(s, root, "cluster", n) && Covers(evidence, order, ["cluster"])
    requires Field(evidence, "cluster") == Obj(Required(template, "cluster")) && "cluster" in order.inner
    requires order.inner["cluster"] == LeastOrder(template, "cluster")
    ensures Step(s, root, evidence, order, "cluster") == AfterCluster(s, template, n)
  {
    hide MergeInto, Required;
    assert "cluster" in Elements(["cluster"]);
  }

  /** Evidence that writes a pinned choice of a cluster that is reached in a second way. */
  lemma ClusterWritten(s: Store, root: nat, n: nat, f: string, json: Json) returns (evidence: Json, order: Order, sections: seq<string>)
    requires IsDict(s, Link(root)) && Admissible(Read(s, Link(root))) && SectionAt(s, root, "cluster", n) && ClusterExposed(s, root, n)
    requires f in PINNED_FIELDS && Scalar(json)
    ensures ListsSections(sections) && Covers(evidence, order, sections)
    ensures EvidenceChecked(Read(s, Link(root)), evidence, PERMISSIVE) && AllMergeable(Read(s, Link(root)), evidence, sections)
    ensures var t, now := Read(s, Link(root)), AfterCluster(s, Read(s, Link(root)), n);
            var after := Sealed(Steps(s, root, evidence, order, sections), root);
            && IsDict(now, Link(n)) && Trimmed(s, root, KnownOf(t, ""), now) && !json.Obj?
            && Trimmed(WrittenTo(now, n, f, json), root, KnownOf(t, f), after) && HasVersion(after, root, Version(t))
  {
    hide Trimmed, Required, Admissible, Version, Count, Held, Read, HasVersion, Step, Steps, Sealed, Ordered, RoomForToolchain, Open,
         AfterCluster, LeastOrder, ListsSections, EvidenceChecked, AllMergeable, AimedEvidence, WrittenTo, Covers;
    var t := Read(s, Link(root));
    SectionInside(s, root, "cluster", n);
    ClusterMerged(s, root, t, n);
    var now := AfterCluster(s, t, n);
    var section, m, k, update, o := ClusterKey(s, now, root, n, f, json);
    var inner := AimedOrder(t, section, k, update, o);
    var rest;
    sections, rest := SectionsAfterCluster(section);
    evidence := AimedEvidence(t, section, k, update);
    order := EvidenceOrder(t, section, k, update, inner, sections);
    TwoSteps(s, root, evidence, order, "cluster", section, rest);
    AimedField(t, section, k, update, "cluster");
    AimedField(t, section, k, update, section);
    ClusterFirst(s, root, n, t, evidence, order);
    PinnedFree(section, f);
    AimedStep(now, root, WrittenTo(now, n, f, json), t, evidence, order, section, m, k, update, f);
    RoomAfterCluster(s, root, t, evidence, order);
    AimedVersion(now, root, t, evidence, order, section, k, update);
    forall other | other in rest ensures RequiredEvidence(t, evidence, other) && f !in Required(t, other) {
      PinnedFree(other, f);
      AimedField(t, section, k, update, other);
    }
    var next := Step(now, root, evidence, order, section);
    RestTrimmed(WrittenTo(now, n, f, json), root, t, next, evidence, order, rest, section, f);
    SectionStays(s, root, now, n, section, m);
    AimedChecked(t, section, k, update);
    AimedMergeable(t, section, k, update, sections);
  }

  lemma RoomAfterCluster(s: Store, root: nat, template: Json, evidence: Json, order: Order)
    requires IsDict(s, Link(root)) && Admissible(Read(s, Link(root))) && Covers(evidence, order, ["cluster"])
    ensures RoomForToolchain(Step(s, root, evidence, order, "cluster"), root)
  {
    hide Read, Step;
    AdmissibleRoom(s, root);
    StepKeepsCells(s, root, evidence, order, "cluster", "toolchain");
  }

  lemma SectionStays(s: Store, root: nat, now: Store, n: nat, section: string, m: nat)
    requires IsDict(s, Link(root)) && root < n < |s| && |s| <= |now| && forall x | 0 <= x < |s| && x != n :: now[x] == s[x]
    requires IsDict(s, Link(n)) && IsDict(now, Link(root)) && SectionAt(now, root, section, m)
    ensures Field(Read(s, Link(root)), section).Obj?
  {
    hide Read;
    assert LaterNode(s[root], root, |s|);
    DictHolds(s, root, section);
    ReadShape(s, s[root].fields[section]);
  }

  lemma SlotStays(s: Store, root: nat, known: Known, after: Store, x: nat, k: string)
    requires Trimmed(s, root, known, after) && IsDict(s, Link(x)) && x != root && k in s[x].fields
    ensures IsDict(after, Link(x)) && k in after[x].fields
    ensures after[x].fields[k] == s[x].fields[k] || WrittenAs(k, after[x].fields[k], known)
  {
    hide WrittenAs;
    assert TrimmedAt(s, known, after, x, k);
  }

  lemma RootStays(s: Store, root: nat, known: Known, after: Store, j: string)
    requires Trimmed(s, root, known, after) && j in s[root].fields && j !in REPLACED
    ensures IsDict(after, Link(root)) && j in after[root].fields && after[root].fields[j] == s[root].fields[j]
  {
  }

  lemma ClusterSlots(s: Store, root: nat, n: nat, t: Json, f: string, json: Json, now: Store, after: Store)
    requires IsDict(s, Link(root)) && Admissible(t) && t == Read(s, Link(root)) && SectionAt(s, root, "cluster", n) && root < n
    requires f in PINNED_FIELDS && Scalar(json) && (f == "node_count" ==> json.Number? && json.number >= 1)
    requires IsDict(now, Link(n)) && Trimmed(s, root, KnownOf(t, ""), now)
    requires Trimmed(WrittenTo(now, n, f, json), root, KnownOf(t, f), after)
    ensures IsDict(after, Link(root)) && "cluster" in after[root].fields && after[root].fields["cluster"] == Link(n) && IsDict(after, Link(n))
    ensures f in after[n].fields && after[n].fields[f] == Leaf(json)
    ensures "minikube_version" in after[n].fields && after[n].fields["minikube_version"] == Leaf(Version(t))
    ensures "node_count" in after[n].fields && after[n].fields["node_count"].Leaf?
            && after[n].fields["node_count"].json.Number? && after[n].fields["node_count"].json.number >= 1
  {
    hide Trimmed, Read;
    ClusterScalars(s, root);
    RootStays(s, root, KnownOf(t, ""), now, "cluster");
    SlotStays(s, root, KnownOf(t, ""), now, n, "minikube_version");
    SlotStays(s, root, KnownOf(t, ""), now, n, "node_count");
    var written := WrittenTo(now, n, f, json);
    assert written[root] == now[root];
    RootStays(written, root, KnownOf(t, f), after, "cluster");
    SlotStays(written, root, KnownOf(t, f), after, n, f);
    SlotStays(written, root, KnownOf(t, f), after, n, "minikube_version");
    SlotStays(written, root, KnownOf(t, f), after, n, "node_count");
  }

  lemma VersionsAgree(after: Store, root: nat, n: nat, version: Json)
    requires IsDict(after, Link(root)) && "cluster" in after[root].fields && after[root].fields["cluster"] == Link(n) && IsDict(after, Link(n))
    requires "minikube_version" in after[n].fields && after[n].fields["minikube_version"] == Leaf(version)
    requires "node_count" in after[n].fields && after[n].fields["node_count"].Leaf?
             && after[n].fields["node_count"].json.Number? && after[n].fields["node_count"].json.number >= 1
    requires HasVersion(after, root, version)
    ensures VersionOk(Read(after, Link(root)), PERMISSIVE)
  {
    hide Read;
    DictHolds(after, root, "cluster");
    DictHolds(after, root, "toolchain");
    FieldOf(after, n, "minikube_version");
    FieldOf(after, n, "node_count");
    FieldOf(after, after[root].fields["toolchain"].ref, "minikube_version");
  }

  /** On the copy: the accepted evidence, and the pinned choice it changes. */
  lemma ExposedClusterChanges(s: Store, root: nat, n: nat, f: string, json: Json) returns (evidence: Json, order: Order, sections: seq<string>)
    requires IsDict(s, Link(root)) && Admissible(Read(s, Link(root))) && SectionAt(s, root, "cluster", n) && ClusterExposed(s, root, n)
    requires f in PINNED_FIELDS && Scalar(json) && (f == "node_count" ==> json.Number? && json.number >= 1)
    ensures ListsSections(sections) && Covers(evidence, order, sections)
    ensures EvidenceChecked(Read(s, Link(root)), evidence, PERMISSIVE) && AllMergeable(Read(s, Link(root)), evidence, sections)
    ensures VersionOk(SealedLock(s, root, evidence, order, sections), PERMISSIVE)
    ensures Field(Field(SealedLock(s, root, evidence, order, sections), "cluster"), f) == json
  {
    hide Trimmed, Read, Admissible, Steps, Sealed, EvidenceChecked, AllMergeable, VersionOk, Covers, Version, Count, HasVersion, AfterCluster,
         ClusterExposed, WrittenTo;
    var t := Read(s, Link(root));
    evidence, order, sections := ClusterWritten(s, root, n, f, json);
    SectionInside(s, root, "cluster", n);
    var after := Sealed(Steps(s, root, evidence, order, sections), root);
    ClusterSlots(s, root, n, t, f, json, AfterCluster(s, t, n), after);
    VersionsAgree(after, root, n, Version(t));
    DictHolds(after, root, "cluster");
    FieldOf(after, n, f);
  }

  lemma ElsewhereCopied(s: Store, template: nat, n: nat)
    requires IsDict(s, Link(template)) && IsDict(Copied(s), Link(template + |s|)) && n < |s|
    ensures SectionElsewhere(Copied(s), template + |s|, n + |s|) <==> SectionElsewhere(s, template, n)
  {
    hide Copied, SectionAt;
    var copy, root, m := Copied(s), template + |s|, n + |s|;
    if other :| other != "cluster" && SectionAt(s, template, other, n) {
      SectionCopied(s, template, other, n);
      assert SectionAt(copy, root, other, m);
    }
    if other :| other != "cluster" && SectionAt(copy, root, other, m) {
      SectionCopied(s, template, other, n);
      assert SectionAt(s, template, other, n);
    }
  }

  lemma ClusterCopied(s: Store, template: nat, n: nat)
    requires IsDict(s, Link(template)) && SectionAt(s, template, "cluster", n)
    ensures var copy, root := Copied(s), template + |s|;
            && IsDict(copy, Link(root)) && Read(copy, Link(root)) == Read(s, Link(template))
            && SectionAt(copy, root, "cluster", n + |s|)
            && (ClusterExposed(copy, root, n + |s|) <==> ClusterExposed(s, template, n))
  {
    hide Read, Copied, Open, SectionElsewhere;
    SectionInside(s, template, "cluster", n);
    CopyValue(s, template);
    SectionCopied(s, template, "cluster", n);
    OpenCopied(s, template, n);
    ElsewhereCopied(s, template, n);
  }

  lemma SameSection(s: Store, root: nat, section: string, m: nat, n: nat)
    requires IsDict(s, Link(root)) && SectionAt(s, root, section, m) && SectionAt(s, root, section, n)
    ensures m == n
  {
  }

  /** The cluster of a usable template, as a node with its pinned choice. */
  lemma ClusterAt(s: Store, root: nat, f: string) returns (n: nat)
    requires IsDict(s, Link(root)) && Admissible(Read(s, Link(root))) && f in PINNED_FIELDS
    ensures SectionAt(s, root, "cluster", n) && f in s[n].fields && s[n].fields[f].Leaf? && In(s, s[n].fields[f])
    ensures var json := s[n].fields[f].json;
            && Field(Field(Read(s, Link(root)), "cluster"), f) == json && Scalar(json)
            && if f == "node_count" then json.Number? && json.number >= 1 else json.Text?
  {
    hide Read;
    ReadKeys(s, root);
    DictHolds(s, root, "cluster");
    n := s[root].fields["cluster"].ref;
    ReadKeys(s, n);
    assert f != "node_count" ==> f in TEXT_CHOICES;
    DictHolds(s, n, f);
    LeafShown(s, n, f);
  }

  ghost predicate ClusterUnexposed(s: Store, template: nat)
    requires IsDict(s, Link(template))
  {
    forall n: nat :: SectionAt(s, template, "cluster", n) ==> !ClusterExposed(s, template, n)
  }

  /**
   Every accepted finalisation of a template keeps a pinned choice exactly when evidence is never accepted, or
   the cluster is reached in no second way by keys that accepted evidence may fill.
   */
  lemma PinnedKeptExactly(s: Store, template: nat, f: string)
    requires IsDict(s, Link(template)) && Counted(Read(s, Link(template))) && f in PINNED_FIELDS
    ensures AlwaysKept(s, template, "cluster", f) <==> (Admissible(Read(s, Link(template))) ==> ClusterUnexposed(s, template))
  {
    if AlwaysKept(s, template, "cluster", f) && Admissible(Read(s, Link(template))) {
      KeptIsClusterUnexposed(s, template, f);
    }
    if Admissible(Read(s, Link(template))) ==> ClusterUnexposed(s, template) {
      ClusterUnexposedIsKept(s, template, f);
    }
  }

  lemma ExposedClusterAccepted(s: Store, template: nat, n: nat, f: string) returns (evidence: Json, order: Order, sections: seq<string>)
    requires IsDict(s, Link(template)) && Admissible(Read(s, Link(template))) && SectionAt(s, template, "cluster", n)
    requires ClusterExposed(s, template, n) && f in PINNED_FIELDS
    ensures Ordered(evidence, order) && ListsSections(sections) && MayAssemble(s, Link(template), evidence, order, sections, PERMISSIVE)
    ensures Covers(evidence, order, sections)
    ensures Field(Field(Read(Assembled(s, template, evidence, order, sections), Link(template + |s|)), "cluster"), f)
            != Field(Field(Read(s, Link(template)), "cluster"), f)
  {
    hide Read, Admissible, Copied, Steps, Sealed, Assembled, EvidenceChecked, AllMergeable, VersionOk, ClusterExposed;
    ClusterCopied(s, template, n);
    var m := ClusterAt(s, template, f);
    evidence, order, sections := ExposedClusterChanges(Copied(s), template + |s|, n + |s|, f, Another(s[m].fields[f].json));
    AssembledIsSealed(s, template, evidence, order, sections);
    assert PERMISSIVE.provenance(Read(Assembled(s, template, evidence, order, sections), Link(template + |s|)));
  }

  lemma KeptIsClusterUnexposed(s: Store, template: nat, f: string)
    requires IsDict(s, Link(template)) && Admissible(Read(s, Link(template))) && f in PINNED_FIELDS && AlwaysKept(s, template, "cluster", f)
    ensures ClusterUnexposed(s, template)
  {
    hide Read, Admissible, Assembled, MayAssemble, ListsSections, Covers, Ordered, ClusterExposed;
    forall n: nat | SectionAt(s, template, "cluster", n) ensures !ClusterExposed(s, template, n) {
      if ClusterExposed(s, template, n) {
        var evidence, order, sections := ExposedClusterAccepted(s, template, n, f);
      }
    }
  }

  lemma ClusterUnexposedIsKept(s: Store, template: nat, f: string)
    requires IsDict(s, Link(template)) && Counted(Read(s, Link(template))) && f in PINNED_FIELDS
    requires Admissible(Read(s, Link(template))) ==> ClusterUnexposed(s, template)
    ensures AlwaysKept(s, template, "cluster", f)
  {
    hide Read, Admissible, Counted, Copied, Steps, Sealed, Assembled, MayAssemble, ListsSections, Covers, Ordered, EvidenceChecked, AllMergeable,
         ClusterExposed, SectionAt;
    forall evidence: Json, order: Order, sections: seq<string>, rules: FieldRules
      | Ordered(evidence, order) && ListsSections(sections) && MayAssemble(s, Link(template), evidence, order, sections, rules)
      ensures Covers(evidence, order, sections)
      ensures Field(Field(Read(Assembled(s, template, evidence, order, sections), Link(template + |s|)), "cluster"), f)
              == Field(Field(Read(s, Link(template)), "cluster"), f)
    {
      AcceptedAdmissible(s, template, evidence, order, sections, rules);
      AcceptedMeans(s, template, evidence, order, sections, rules);
      var n := ClusterAt(s, template, f);
      ClusterCopied(s, template, n);
      ClusterKeptHere(Copied(s), template + |s|, n + |s|, f, evidence, order, sections, rules);
      AssembledIsSealed(s, template, evidence, order, sections);
    }
  }

  lemma ClusterKeptHere(s: Store, root: nat, n: nat, f: string, evidence: Json, order: Order, sections: seq<string>, rules: FieldRules)
    requires IsDict(s, Link(root)) && Admissible(Read(s, Link(root))) && Covers(evidence, order, sections) && ListsSections(sections)
    requires EvidenceChecked(Read(s, Link(root)), evidence, rules) && AllMergeable(Read(s, Link(root)), evidence, sections)
    requires SectionAt(s, root, "cluster", n) && !ClusterExposed(s, root, n) && f in PINNED_FIELDS
    ensures Field(Field(SealedLock(s, root, evidence, order, sections), "cluster"), f) == Field(Field(Read(s, Link(root)), "cluster"), f)
  {
    hide Read, Admissible, Steps, Sealed, EvidenceChecked, AllMergeable, Covers, ListsSections, ClusterExposed;
    var m := ClusterAt(s, root, f);
    SameSection(s, root, "cluster", m, n);
    AcceptedKeepsPinned(s, root, evidence, order, sections, rules, m, f);
  }

  // ----- a base image that changes -----

  /** The values under the keys merged so far; what is under the free keys is the same cell. */
  ghost predicate RolesShow(s: Store, r: nat, updates: Json, done: set<string>, free: set<string>, after: Store)
    requires IsDict(s, Link(r)) && updates.Obj? && done <= updates.fields.Keys
  {
    && IsDict(after, Link(r)) && after[r].fields.Keys == s[r].fields.Keys + done
    && (forall k | k in after[r].fields && k !in free ::
          In(after, after[r].fields[k]) && Read(after, after[r].fields[k]) == MergedOn(Read(s, Link(r)), updates, done).fields[k])
    && (forall k | k in s[r].fields && IsDict(s, s[r].fields[k]) && (k in done ==> updates.fields[k].Obj?) ::
          after[r].fields[k] == s[r].fields[k] && IsDict(after, s[r].fields[k]))
  }

  lemma {:induction false} RolesMerged(s: Store, r: nat, updates: Json, order: Order, live: set<string>, free: set<string>, n: nat)
    requires IsDict(s, Link(r)) && updates.Obj? && Ordered(updates, order) && n <= |order.keys|
    requires Apart(s, r, live, free) && live !! free && updates.fields.Keys <= live && s[r].fields.Keys <= live + free
    ensures Elements(order.keys[..n]) <= updates.fields.Keys
    ensures var after := MergeKeys(s, r, updates, order, n);
            Apart(after, r, live, free) && RolesShow(s, r, updates, Elements(order.keys[..n]), free, after)
    decreases n
  {
    hide Read, Apart, MergeKey, RolesShow, MergedOn;
    if n == 0 {
      assert Elements(order.keys[..n]) == {};
      NoRoles(s, r, updates, free);
    } else {
      var done, key := order.keys[..n - 1], order.keys[n - 1];
      RolesMerged(s, r, updates, order, live, free, n - 1);
      assert key in Elements(order.keys);
      assert order.keys[..n] == done + [key] && Elements(order.keys[..n]) == Elements(done) + {key};
      RoleMerged(s, r, MergeKeys(s, r, updates, order, n - 1), updates, Elements(done), key, order.inner[key], live, free);
    }
  }

  lemma NoRoles(s: Store, r: nat, updates: Json, free: set<string>)
    requires IsDict(s, Link(r)) && updates.Obj?
    ensures RolesShow(s, r, updates, {}, free, s)
  {
    hide Read;
    ReadKeys(s, r);
    MergedNone(Read(s, Link(r)), updates);
    forall k | k in s[r].fields ensures In(s, s[r].fields[k]) && Read(s, s[r].fields[k]) == Read(s, Link(r)).fields[k] {
      DictHolds(s, r, k);
    }
  }

  lemma RoleMerged(s: Store, r: nat, now: Store, updates: Json, done: set<string>, key: string, order: Order, live: set<string>, free: set<string>)
    requires IsDict(s, Link(r)) && updates.Obj? && done <= updates.fields.Keys && key in updates.fields && key !in done
    requires RolesShow(s, r, updates, done, free, now) && Ordered(updates.fields[key], order)
    requires Apart(now, r, live, free) && live !! free && key in live
    ensures var after := MergeKey(now, r, key, updates.fields[key], order);
            Apart(after, r, live, free) && RolesShow(s, r, updates, done + {key}, free, after)
  {
    var update, after := updates.fields[key], MergeKey(now, r, key, updates.fields[key], order);
    hide Read, Apart, MergedOn, MergedAt, Merge, MergeInto, PlaceAt, Parts, Writable, RolesShow, MergeKey, OthersKept;
    assert live + {key} == live && free - {key} == free;
    KeyApart(now, r, key, update, order, live, free);
    RoleReads(s, r, now, updates, done, key, free, after);
    RoleCells(s, r, now, updates, done, key, order, free);
    RolesFrom(s, r, updates, done + {key}, free, after);
  }

  /** One key of a mapping whose free keys may share: its value is merged, the other keys stay. */
  lemma KeyApart(s: Store, r: nat, key: string, update: Json, order: Order, live: set<string>, free: set<string>)
    requires IsDict(s, Link(r)) && Apart(s, r, live, free) && live !! free && key in live && Ordered(update, order)
    ensures var after := MergeKey(s, r, key, update, order);
            && Apart(after, r, live + {key}, free - {key}) && OthersKept(s, after, r, key, free)
            && In(after, after[r].fields[key])
            && (key in s[r].fields ==> In(s, s[r].fields[key]))
            && Read(after, after[r].fields[key])
               == if key in s[r].fields then Merge(Read(s, s[r].fields[key]), update) else update
  {
    hide Read, Apart, MergeInto, PlaceAt, Parts, Writable, OthersKept;
    var fields := s[r].fields;
    if key in fields {
      DictHolds(s, r, key);
      ReadShape(s, fields[key]);
    }
    if key in fields && IsDict(s, fields[key]) && update.Obj? {
      FieldMerged(s, r, key, update, order, live, free);
    } else {
      FieldPlaced(s, r, key, update, order, live, free);
    }
  }

  ghost predicate RoleValues(s: Store, r: nat, updates: Json, done: set<string>, free: set<string>, after: Store)
    requires IsDict(s, Link(r)) && updates.Obj? && done <= updates.fields.Keys
  {
    && IsDict(after, Link(r)) && after[r].fields.Keys == s[r].fields.Keys + done
    && forall k | k in after[r].fields && k !in free ::
         In(after, after[r].fields[k]) && Read(after, after[r].fields[k]) == MergedOn(Read(s, Link(r)), updates, done).fields[k]
  }

  ghost predicate RoleSame(s: Store, r: nat, updates: Json, done: set<string>, after: Store)
    requires IsDict(s, Link(r)) && updates.Obj? && done <= updates.fields.Keys && IsDict(after, Link(r)) && s[r].fields.Keys <= after[r].fields.Keys
  {
    forall k | k in s[r].fields && IsDict(s, s[r].fields[k]) && (k in done ==> updates.fields[k].Obj?) ::
      after[r].fields[k] == s[r].fields[k] && IsDict(after, s[r].fields[k])
  }

  lemma RolesFrom(s: Store, r: nat, updates: Json, done: set<string>, free: set<string>, after: Store)
    requires IsDict(s, Link(r)) && updates.Obj? && done <= updates.fields.Keys
    requires RoleValues(s, r, updates, done, free, after) && RoleSame(s, r, updates, done, after)
    ensures RolesShow(s, r, updates, done, free, after)
  {
    hide Read, MergedOn;
  }

  lemma RoleReads(s: Store, r: nat, now: Store, updates: Json, done: set<string>, key: string, free: set<string>, after: Store)
    requires IsDict(s, Link(r)) && updates.Obj? && done <= updates.fields.Keys && key in updates.fields && key !in done && key !in free
    requires RolesShow(s, r, updates, done, free, now) && IsDict(after, Link(r)) && OthersKept(now, after, r, key, free)
    requires key in now[r].fields ==> In(now, now[r].fields[key])
    requires In(after, after[r].fields[key])
    requires Read(after, after[r].fields[key])
             == if key in now[r].fields then Merge(Read(now, now[r].fields[key]), updates.fields[key]) else updates.fields[key]
    ensures RoleValues(s, r, updates, done + {key}, free, after)
  {
    hide Read, Merge, Parts, Writable, Unshared;
    ReadKeys(s, r);
    var t := Read(s, Link(r));
    MergedStep(t, updates, done, key);
    var before := MergedOn(t, updates, done);
    forall k | k in after[r].fields && k !in free
      ensures In(after, after[r].fields[k]) && Read(after, after[r].fields[k]) == MergedOn(t, updates, done + {key}).fields[k]
    {
      if k != key {
        assert In(now, now[r].fields[k]) && Read(now, now[r].fields[k]) == before.fields[k];
      }
    }
  }

  lemma RoleCells(s: Store, r: nat, now: Store, updates: Json, done: set<string>, key: string, order: Order, free: set<string>)
    requires IsDict(s, Link(r)) && updates.Obj? && done <= updates.fields.Keys && key in updates.fields && key !in done
    requires RolesShow(s, r, updates, done, free, now) && Ordered(updates.fields[key], order)
    ensures var after := MergeKey(now, r, key, updates.fields[key], order);
            IsDict(after, Link(r)) && s[r].fields.Keys <= after[r].fields.Keys && RoleSame(s, r, updates, done + {key}, after)
  {
    hide Read, MergedOn;
    var update, after := updates.fields[key], MergeKey(now, r, key, updates.fields[key], order);
    assert LaterNode(now[r], r, |now|);
    forall k | k in now[r].fields && k != key ensures k in after[r].fields && after[r].fields[k] == now[r].fields[k] {
      OtherKey(now, r, key, update, order, k);
    }
  }

  lemma {:induction false} StepsLast(s: Store, root: nat, evidence: Json, order: Order, earlier: seq<string>, last: string)
    requires IsDict(s, Link(root)) && Covers(evidence, order, earlier + [last])
    ensures Covers(evidence, order, earlier) && Covers(evidence, order, [last])
    ensures Steps(s, root, evidence, order, earlier + [last]) == Step(Steps(s, root, evidence, order, earlier), root, evidence, order, last)
    decreases |earlier|
  {
    assert Elements(earlier) <= Elements(earlier + [last]) && last in Elements(earlier + [last]);
    assert Elements([last]) == {last};
    if earlier == [] {
      assert earlier + [last] == [last] && [last][1..] == [];
    } else {
      assert (earlier + [last])[1..] == earlier[1..] + [last];
      assert earlier[0] in Elements(earlier) && Elements([earlier[0]]) == {earlier[0]};
      assert Elements((earlier + [last])[1..]) <= Elements(earlier + [last]);
      StepsLast(Step(s, root, evidence, order, earlier[0]), root, evidence, order, earlier[1..], last);
    }
  }

  /** What is under another key does not change, node by node. */
  ghost predicate CellSame(s: Store, root: nat, after: Store, j: string)
    requires IsDict(s, Link(root)) && j in s[root].fields && In(s, s[root].fields[j])
  {
    && IsDict(after, Link(root)) && j in after[root].fields && after[root].fields[j] == s[root].fields[j]
    && forall x | x in Parts(s, s[root].fields[j]) :: x < |after| && after[x] == s[x]
  }

  lemma StepUntouched(s: Store, root: nat, evidence: Json, order: Order, section: string, live: set<string>, free: set<string>, j: string)
    requires IsDict(s, Link(root)) && Apart(s, root, live, free) && Covers(evidence, order, [section])
    requires section in live || section == PROVENANCE
    requires j in s[root].fields && j != section && j !in free && In(s, s[root].fields[j])
    ensures CellSame(s, root, Step(s, root, evidence, order, section), j)
  {
    hide Read, Parts, Writable, Unshared, MergeInto;
    assert section in Elements([section]);
    assert LaterNode(s[root], root, |s|);
    PartsAfter(s, s[root].fields[j], root);
    StepKeepsCells(s, root, evidence, order, section, j);
    var after, update, inner := Step(s, root, evidence, order, section), evidence.fields[section], order.inner[section];
    forall x | x in Parts(s, s[root].fields[j]) ensures x < |after| && after[x] == s[x] {
      PartsInside(s, s[root].fields[j], x);
      if section != PROVENANCE && section in s[root].fields && IsDict(s, s[root].fields[section]) && update.Obj? {
        MergeShows(s, s[root].fields[section].ref, update, inner);
        OwnPart(s, s[root].fields[section]);
      } else if section != PROVENANCE {
        EmptyPlaced(s);
      }
    }
  }

  lemma {:induction false} StepsUntouched(s: Store, root: nat, lock: Json, evidence: Json, order: Order, sections: seq<string>,
                                          live: set<string>, free: set<string>, j: string)
    requires IsDict(s, Link(root)) && lock.Obj? && RootShows(s, root, lock, free) && Ready(s, root, live, free)
    requires Covers(evidence, order, sections) && Distinct(sections) && Elements(sections) <= live + {PROVENANCE}
    requires AllMergeable(lock, evidence, sections)
    requires j in s[root].fields && j !in free && j !in sections && In(s, s[root].fields[j])
    ensures CellSame(s, root, Steps(s, root, evidence, order, sections), j)
    decreases |sections|
  {
    hide RootShows, Step, Mergeable, Sections, Apart, Parts, Read;
    if sections != [] {
      var section, rest := sections[0], sections[1..];
      assert section in Elements(sections) && Elements([section]) == {section};
      assert Elements(sections) == {section} + Elements(rest);
      StepShows(s, root, lock, evidence, order, section, live, free);
      StepUntouched(s, root, evidence, order, section, live, free, j);
      SectionsMore(lock, evidence, section, rest);
      var now := Step(s, root, evidence, order, section);
      Framed(s, now, s[root].fields[j]);
      StepsUntouched(now, root, Sections(lock, evidence, {section}), evidence, order, rest, live, free - {section}, j);
    }
  }

  lemma ApartFramed(s: Store, after: Store, r: nat, live: set<string>, free: set<string>)
    requires IsDict(s, Link(r)) && Apart(s, r, live, free) && forall x :: x in Parts(s, Link(r)) ==> x < |after| && after[x] == s[x]
    ensures IsDict(after, Link(r)) && after[r] == s[r] && Apart(after, r, live, free) && Read(after, Link(r)) == Read(s, Link(r))
  {
    hide Read, Parts, Writable, Unshared;
    Framed(s, after, Link(r));
    PartIsOwnDict(s, Link(r));
    forall k | k in s[r].fields ensures In(s, s[r].fields[k]) && Same(s, after, s[r].fields[k]) {
      DictHolds(s, r, k);
      Framed(s, after, s[r].fields[k]);
    }
  }

  const BASES := Elements(BASE_ROLES)

  /** A base image is the same mapping as another image, and nothing else that can be written is shared. */
  ghost predicate OnlyBaseShared(s: Store, root: nat, i: nat, role: string, other: string)
    requires IsDict(s, Link(root))
  {
    && SectionAt(s, root, "images", i) && role in BASES && other !in BASES
    && role in s[i].fields && other in s[i].fields && s[i].fields[role] == s[i].fields[other] && IsDict(s, s[i].fields[role])
    && Apart(s, root, MERGED_SECTIONS - {"images"}, REPLACED)
    && Apart(s, i, s[i].fields.Keys - BASES, BASES)
  }

  /** The evidence has no base image, and a mapping for the other one if it has anything for it. */
  predicate NoBaseEvidence(evidence: Json, other: string) {
    var updates := Field(evidence, "images");
    && updates.Obj? && (forall role :: role in BASE_ROLES ==> role !in updates.fields)
    && (other in updates.fields ==> updates.fields[other].Obj?)
  }

  lemma ApartLive(s: Store, r: nat, live: set<string>, free: set<string>, more: set<string>)
    requires IsDict(s, Link(r)) && Apart(s, r, live, free) && more * s[r].fields.Keys <= live
    ensures Apart(s, r, more, free)
  {
    hide Parts, Writable, Unshared;
  }

  /** The images, merged after everything else. */
  lemma ImagesMerged(s: Store, i: nat, updates: Json, order: Order, role: string, other: string)
    requires IsDict(s, Link(i)) && Apart(s, i, s[i].fields.Keys - BASES, BASES) && updates.Obj? && Ordered(updates, order)
    requires forall k :: k in BASES ==> k !in updates.fields
    requires role in BASES && other !in BASES && role in s[i].fields && other in s[i].fields
    requires s[i].fields[role] == s[i].fields[other] && IsDict(s, s[i].fields[role])
    requires other in updates.fields ==> updates.fields[other].Obj?
    ensures var after := MergeInto(s, i, updates, order);
            && IsDict(after, Link(i)) && role in after[i].fields && other in after[i].fields
            && after[i].fields[role] == after[i].fields[other]
            && Field(Read(after, Link(i)), other) == Field(Merge(Read(s, Link(i)), updates), other)
  {
    hide Read, Apart, Merge, MergedOn, MergeKeys, MergeKey;
    var live := s[i].fields.Keys + updates.fields.Keys - BASES;
    ApartLive(s, i, s[i].fields.Keys - BASES, BASES, live);
    RolesMerged(s, i, updates, order, live, BASES, |order.keys|);
    assert order.keys[..|order.keys|] == order.keys;
    KeysListed(updates, order);
    ReadKeys(s, i);
    MergedAll(Read(s, Link(i)), updates);
    DictHolds(MergeInto(s, i, updates, order), i, other);
    MergeObj(Read(s, Link(i)), updates);
  }

  lemma MergeObj(target: Json, updates: Json)
    requires target.Obj? && updates.Obj?
    ensures Merge(target, updates).Obj? && Merge(target, updates).fields.Keys == target.fields.Keys + updates.fields.Keys
  {
  }

  lemma SealedField(s: Store, root: nat, j: string)
    requires IsDict(s, Link(root)) && j in s[root].fields && j !in REPLACED
    ensures In(s, s[root].fields[j]) && Field(Read(Sealed(s, root), Link(root)), j) == Read(s, s[root].fields[j])
  {
    hide Read, Sealed;
    assert Ordered(Obj(map[]), NO_KEYS);
    QuietlyKept(s, root, Obj(map[]), NO_KEYS, [], j);
  }

  /** The state before the images are merged: all else is done, and the images are as they were. */
  lemma BeforeImages(s: Store, root: nat, evidence: Json, order: Order, earlier: seq<string>, i: nat, role: string, other: string)
    requires IsDict(s, Link(root)) && OnlyBaseShared(s, root, i, role, other)
    requires ListsSections(earlier + ["images"]) && Covers(evidence, order, earlier + ["images"])
    requires AllMergeable(Read(s, Link(root)), evidence, earlier + ["images"])
    ensures Covers(evidence, order, earlier)
    ensures var now := Steps(s, root, evidence, order, earlier);
            && "images" in now[root].fields && now[root].fields["images"] == Link(i)
            && IsDict(now, Link(i)) && now[i] == s[i] && IsDict(now, s[i].fields[role])
            && Apart(now, i, s[i].fields.Keys - BASES, BASES) && Read(now, Link(i)) == Read(s, Link(i))
  {
    hide Read, Parts, Writable, Unshared, Steps, AllMergeable, Apart, Covers, ListsSections;
    StepsLast(s, root, evidence, order, earlier, "images");
    EarlierListed(earlier);
    SectionInside(s, root, "images", i);
    ImagesUntouched(s, root, evidence, order, earlier);
    ImagesSame(s, root, Steps(s, root, evidence, order, earlier), i, role, other);
  }

  lemma ImagesUntouched(s: Store, root: nat, evidence: Json, order: Order, earlier: seq<string>)
    requires IsDict(s, Link(root)) && Apart(s, root, MERGED_SECTIONS - {"images"}, REPLACED) && Covers(evidence, order, earlier)
    requires Distinct(earlier) && "images" !in earlier && Elements(earlier) <= MERGED_SECTIONS - {"images"} + {PROVENANCE}
    requires AllMergeable(Read(s, Link(root)), evidence, earlier + ["images"])
    requires "images" in s[root].fields && In(s, s[root].fields["images"])
    ensures CellSame(s, root, Steps(s, root, evidence, order, earlier), "images")
  {
    hide Read, Parts, Writable, Unshared, Steps, Mergeable, Apart, RootShows, CellSame, Covers;
    assert forall k :: k in earlier ==> k in earlier + ["images"];
    RootReads(s, root, REPLACED);
    StepsUntouched(s, root, Read(s, Link(root)), evidence, order, earlier, MERGED_SECTIONS - {"images"}, REPLACED, "images");
  }

  lemma ImagesSame(s: Store, root: nat, now: Store, i: nat, role: string, other: string)
    requires IsDict(s, Link(root)) && OnlyBaseShared(s, root, i, role, other) && root < i < |s|
    requires In(s, Link(i)) && CellSame(s, root, now, "images")
    ensures IsDict(now, Link(root)) && "images" in now[root].fields && now[root].fields["images"] == Link(i)
    ensures IsDict(now, Link(i)) && now[i] == s[i] && IsDict(now, s[i].fields[role])
    ensures Apart(now, i, s[i].fields.Keys - BASES, BASES) && Read(now, Link(i)) == Read(s, Link(i))
  {
    hide Read, Parts, Writable, Unshared, Apart;
    ApartFramed(s, now, i, s[i].fields.Keys - BASES, BASES);
    DictHolds(s, i, role);
    PartIsOwnDict(s, s[i].fields[role]);
  }

  lemma EarlierListed(earlier: seq<string>)
    requires ListsSections(earlier + ["images"])
    ensures Distinct(earlier) && "images" !in earlier && Elements(earlier) <= MERGED_SECTIONS - {"images"} + {PROVENANCE}
  {
    var sections := earlier + ["images"];
    forall k | k in earlier ensures k in MERGED_SECTIONS + {PROVENANCE} && k != "images" {
      var i :| 0 <= i < |earlier| && earlier[i] == k;
      assert sections[i] == k && sections[|earlier|] == "images" && k in Elements(sections);
    }
    forall i, j | 0 <= i < j < |earlier| ensures earlier[i] != earlier[j] {
      assert sections[i] == earlier[i] && sections[j] == earlier[j];
    }
  }

  /** On the copy: the base image shows what the merge makes of the other image. */
  lemma SharedRoleMerged(s: Store, root: nat, evidence: Json, order: Order, earlier: seq<string>, i: nat, role: string, other: string)
    requires IsDict(s, Link(root)) && OnlyBaseShared(s, root, i, role, other) && NoBaseEvidence(evidence, other)
    requires ListsSections(earlier + ["images"]) && Covers(evidence, order, earlier + ["images"])
    requires AllMergeable(Read(s, Link(root)), evidence, earlier + ["images"])
    ensures var images := Field(SealedLock(s, root, evidence, order, earlier + ["images"]), "images");
            Field(images, role) == Field(images, other) == Field(Merge(Read(s, Link(i)), Field(evidence, "images")), other)
  {
    hide Read, Parts, Writable, Unshared, Steps, Sealed, Apart, Merge, MergeInto, AllMergeable, Covers;
    BeforeImages(s, root, evidence, order, earlier, i, role, other);
    StepsLast(s, root, evidence, order, earlier, "images");
    var now := Steps(s, root, evidence, order, earlier);
    var after := Step(now, root, evidence, order, "images");
    ImagesStep(now, root, evidence, order, i, role, other);
    SealedField(after, root, "images");
    DictHolds(after, i, role);
    DictHolds(after, i, other);
  }

  lemma ImagesStep(s: Store, root: nat, evidence: Json, order: Order, i: nat, role: string, other: string)
    requires IsDict(s, Link(root)) && "images" in s[root].fields && s[root].fields["images"] == Link(i) && IsDict(s, Link(i)) && root < i
    requires Covers(evidence, order, ["images"]) && NoBaseEvidence(evidence, other)
    requires Apart(s, i, s[i].fields.Keys - BASES, BASES) && role in BASES && other !in BASES
    requires role in s[i].fields && other in s[i].fields && s[i].fields[role] == s[i].fields[other] && IsDict(s, s[i].fields[role])
    ensures var after := Step(s, root, evidence, order, "images");
            && "images" in after[root].fields && after[root].fields["images"] == Link(i)
            && IsDict(after, Link(i)) && role in after[i].fields && other in after[i].fields
            && after[i].fields[role] == after[i].fields[other]
            && Field(Read(after, Link(i)), other) == Field(Merge(Read(s, Link(i)), Field(evidence, "images")), other)
  {
    hide Read, Parts, Apart, Merge, MergeInto;
    assert "images" in Elements(["images"]);
    ImagesMerged(s, i, Field(evidence, "images"), order.inner["images"], role, other);
  }

  lemma OnlyBaseCopied(s: Store, template: nat, i: nat, role: string, other: string)
    requires IsDict(s, Link(template)) && OnlyBaseShared(s, template, i, role, other)
    ensures IsDict(Copied(s), Link(template + |s|)) && OnlyBaseShared(Copied(s), template + |s|, i + |s|, role, other)
    ensures Read(Copied(s), Link(i + |s|)) == Read(s, Link(i))
  {
    hide Read, Parts, Writable, Copied, Apart, Like;
    SectionInside(s, template, "images", i);
    SectionCopied(s, template, "images", i);
    CopiedDict(s, i);
    CopyValue(s, i);
    FieldLike(s, i, role);
    LikeShape(s, s[i].fields[role], Copied(s), Moved(s[i].fields[role], |s|), |s|);
    CopiedApart(s, template, MERGED_SECTIONS - {"images"}, REPLACED);
    CopiedApart(s, i, s[i].fields.Keys - BASES, BASES);
  }

  /**
   A base image can change: in a template where it is the same mapping as another image, and nothing else
   that can be written is shared, every accepted finalisation without base images in its evidence that merges
   the images last shows the other image's new record under both roles. Sections, roles, provenance and the
   other rules are arbitrary.
   */
  lemma AliasedBaseImageChanges(s: Store, template: nat, i: nat, role: string, other: string,
                                evidence: Json, order: Order, earlier: seq<string>, rules: FieldRules)
    requires IsDict(s, Link(template)) && OnlyBaseShared(s, template, i, role, other) && NoBaseEvidence(evidence, other)
    requires Ordered(evidence, order) && ListsSections(earlier + ["images"])
    requires MayAssemble(s, Link(template), evidence, order, earlier + ["images"], rules)
    ensures Covers(evidence, order, earlier + ["images"])
    ensures var images := Field(Read(s, Link(template)), "images");
            LockHas(s, template, evidence, order, earlier + ["images"], "images", role, Field(Merge(images, Field(evidence, "images")), other))
    ensures var record := Field(Field(Read(s, Link(template)), "images"), role);
            && Field(Field(Read(s, Link(template)), "images"), other) == record
            && Field(Merge(Field(Read(s, Link(template)), "images"), Field(evidence, "images")), other)
               == if other in Field(evidence, "images").fields then Merge(record, Field(Field(evidence, "images"), other)) else record
  {
    hide Read, Parts, Copied, Steps, Sealed, Assembled, MayAssemble, OnlyBaseShared, Merge, Covers, AllMergeable, EvidenceChecked, Ordered, ListsSections;
    AcceptedMeans(s, template, evidence, order, earlier + ["images"], rules);
    OnlyBaseCopied(s, template, i, role, other);
    CopyValue(s, template);
    SharedRoleMerged(Copied(s), template + |s|, evidence, order, earlier, i + |s|, role, other);
    AssembledIsSealed(s, template, evidence, order, earlier + ["images"]);
    SharedRecord(s, template, i, role, other);
    MergedField(Read(s, Link(i)), Field(evidence, "images"), other);
  }

  lemma SharedRecord(s: Store, template: nat, i: nat, role: string, other: string)
    requires IsDict(s, Link(template)) && OnlyBaseShared(s, template, i, role, other)
    ensures Field(Read(s, Link(template)), "images") == Read(s, Link(i)) && Read(s, Link(i)).Obj? && other in Read(s, Link(i)).fields
    ensures Field(Read(s, Link(i)), role) == Field(Read(s, Link(i)), other)
  {
    hide Read, Apart;
    DictHolds(s, template, "images");
    ReadKeys(s, i);
    DictHolds(s, i, role);
    DictHolds(s, i, other);
  }

  lemma MergedField(target: Json, updates: Json, k: string)
    requires target.Obj? && updates.Obj? && k in target.fields
    ensures Field(Merge(target, updates), k) == if k in updates.fields then Merge(target.fields[k], updates.fields[k]) else target.fields[k]
  {
  }
}
