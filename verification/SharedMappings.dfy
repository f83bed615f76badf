/** The in-place merge of evidence into mappings that YAML aliases may share (scripts/k8s/lock_lifecycle.py). */
module SharedMappings {
  import opened Collections
  import opened JsonValues

  // ----- the heap -----

  /** What a key holds: a value that is never changed in place, or a mapping or list by its address. */
  datatype Cell = Leaf(json: Json) | Link(ref: nat)

  datatype Node = Dict(fields: map<string, Cell>) | List(items: seq<Cell>)

  /**
   Links lead to later addresses. Every acyclic heap can be numbered so, and the merge keeps it so:
   it only adds links to nodes made after the one that holds them.
   */
  predicate Later(c: Cell, r: int, size: nat) {
    match c
    case Leaf(json) => !json.Obj?
    case Link(ref) => r < ref < size
  }

  predicate LaterNode(node: Node, r: int, size: nat) {
    match node
    case Dict(fields) => forall k | k in fields :: Later(fields[k], r, size)
    case List(items) => forall i | 0 <= i < |items| :: Later(items[i], r, size)
  }

  predicate Forward(nodes: seq<Node>) {
    forall r | 0 <= r < |nodes| :: LaterNode(nodes[r], r, |nodes|)
  }

  type Store = nodes: seq<Node> | Forward(nodes)

  predicate In(s: Store, c: Cell) {
    Later(c, -1, |s|)
  }

  predicate IsDict(s: Store, c: Cell) {
    c.Link? && c.ref < |s| && s[c.ref].Dict?
  }

  function Height(s: Store, c: Cell): nat {
    if c.Link? && c.ref < |s| then |s| - c.ref else 0
  }

  /** The value that a cell shows. */
  function Read(s: Store, c: Cell): (json: Json)
    requires In(s, c)
    ensures json.Obj? <==> IsDict(s, c)
    decreases Height(s, c)
  {
    match c
    case Leaf(json) => json
    case Link(r) =>
      match s[r]
      case Dict(fields) => Obj(map k | k in fields :: Read(s, fields[k]))
      case List(items) => Items(seq(|items|, i requires 0 <= i < |items| => Read(s, items[i])))
  }

  /** The mappings and lists that a cell is made of. */
  function Parts(s: Store, c: Cell): (parts: set<nat>)
    requires In(s, c)
    ensures forall x :: x in parts ==> c.Link? && c.ref <= x < |s|
    decreases Height(s, c)
  {
    match c
    case Leaf(_) => {}
    case Link(r) =>
      match s[r]
      case Dict(fields) => {r} + set k, x | k in fields && x in Parts(s, fields[k]) :: x
      case List(items) => {r} + set i, x | 0 <= i < |items| && x in Parts(s, items[i]) :: x
  }

  /** The mappings among them that a path of keys leads to: the ones a merge can write to. */
  function Writable(s: Store, c: Cell): (parts: set<nat>)
    requires In(s, c)
    ensures parts <= Parts(s, c)
    ensures forall x :: x in parts ==> x < |s| && s[x].Dict?
    decreases Height(s, c)
  {
    if IsDict(s, c) then {c.ref} + set k, x | k in s[c.ref].fields && x in Writable(s, s[c.ref].fields[k]) :: x
    else {}
  }

  /** No mapping that a merge can write to is reached in a second way. */
  ghost predicate Unshared(s: Store, c: Cell)
    requires In(s, c)
    decreases Height(s, c), 0
  {
    IsDict(s, c) ==> Apart(s, c.ref, s[c.ref].fields.Keys, {})
  }

  /** The same of the children under the `live` keys; what is under the `free` keys may share with them. */
  ghost predicate Apart(s: Store, r: nat, live: set<string>, free: set<string>)
    requires IsDict(s, Link(r))
    decreases Height(s, Link(r)), 0, 0
  {
    var fields := s[r].fields;
    forall k | k in fields && k in live ::
      && Unshared(s, fields[k])
      && forall j | j in fields && j != k && j !in free :: Writable(s, fields[k]) !! Parts(s, fields[j])
  }

  // ----- merging in place -----

  /** The order in which a mapping, and each mapping in it, lists its keys. */
  datatype Order = Order(keys: seq<string>, inner: map<string, Order>)

  ghost predicate Ordered(json: Json, order: Order) {
    json.Obj? ==>
      && Distinct(order.keys) && Elements(order.keys) == json.fields.Keys
      && forall k | k in json.fields :: k in order.inner && Ordered(json.fields[k], order.inner[k])
  }

  /** Nodes keep their kind, and those before `r` are untouched. */
  ghost predicate Grown(s: Store, after: Store, r: nat) {
    && |s| <= |after|
    && (forall x | 0 <= x < |s| :: s[x].Dict? == after[x].Dict?)
    && (forall x | 0 <= x < r && x < |s| :: after[x] == s[x])
  }

  function Alloc(s: Store): (after: Store) {
    s + [Dict(map[])]
  }

  function Bind(s: Store, r: nat, key: string, c: Cell): (after: Store)
    requires IsDict(s, Link(r)) && Later(c, r, |s|)
    ensures Grown(s, after, r)
  {
    s[r := Dict(s[r].fields[key := c])]
  }

  /** `for key, value in updates.items()`, for the first `n` keys. */
  function MergeKeys(s: Store, r: nat, updates: Json, order: Order, n: nat): (after: Store)
    requires IsDict(s, Link(r)) && updates.Obj? && Ordered(updates, order) && n <= |order.keys|
    ensures Grown(s, after, r)
    decreases updates, 0, n
  {
    if n == 0 then s
    else
      var key := order.keys[n - 1];
      assert key in Elements(order.keys);
      MergeKey(MergeKeys(s, r, updates, order, n - 1), r, key, updates.fields[key], order.inner[key])
  }

  function MergeInto(s: Store, r: nat, updates: Json, order: Order): (after: Store)
    requires IsDict(s, Link(r)) && updates.Obj? && Ordered(updates, order)
    ensures Grown(s, after, r)
    decreases updates, 1
  {
    MergeKeys(s, r, updates, order, |order.keys|)
  }

  /** Two mappings are merged; anything else is replaced by a copy of the evidence. */
  function MergeKey(s: Store, r: nat, key: string, update: Json, order: Order): (after: Store)
    requires IsDict(s, Link(r)) && Ordered(update, order)
    ensures Grown(s, after, r)
    decreases update, 3
  {
    if key in s[r].fields && IsDict(s, s[r].fields[key]) && update.Obj?
    then MergeInto(s, s[r].fields[key].ref, update, order)
    else PlaceAt(s, r, key, update, order)
  }

  /** `copy.deepcopy` of evidence: new mappings all the way down. */
  function Place(s: Store, json: Json, order: Order): (placed: (Store, Cell))
    requires Ordered(json, order)
    ensures Grown(s, placed.0, |s|) && In(placed.0, placed.1)
    ensures placed.1 == if json.Obj? then Link(|s|) else Leaf(json)
    decreases json, 2
  {
    if json.Obj? then (MergeInto(Alloc(s), |s|, json, order), Link(|s|)) else (s, Leaf(json))
  }

  function PlaceAt(s: Store, r: nat, key: string, json: Json, order: Order): (after: Store)
    requires IsDict(s, Link(r)) && Ordered(json, order)
    ensures Grown(s, after, r)
    decreases json, 3, 0
  {
    var (placed, c) := Place(s, json, order);
    Bind(placed, r, key, c)
  }

  // ----- what a change elsewhere leaves alone -----

  ghost predicate Same(s: Store, after: Store, c: Cell)
    requires In(s, c)
  {
    && In(after, c)
    && Read(after, c) == Read(s, c) && Parts(after, c) == Parts(s, c) && Writable(after, c) == Writable(s, c)
    && (Unshared(after, c) <==> Unshared(s, c))
  }

  lemma DictHolds(s: Store, r: nat, k: string)
    requires IsDict(s, Link(r)) && k in s[r].fields
    ensures In(s, s[r].fields[k]) && Later(s[r].fields[k], r, |s|)
    ensures Parts(s, s[r].fields[k]) <= Parts(s, Link(r)) && Writable(s, s[r].fields[k]) <= Writable(s, Link(r))
    ensures r !in Parts(s, s[r].fields[k])
    ensures Read(s, Link(r)).Obj? && Read(s, Link(r)).fields.Keys == s[r].fields.Keys
    ensures Read(s, Link(r)).fields[k] == Read(s, s[r].fields[k])
  {
    assert LaterNode(s[r], r, |s|);
  }

  lemma ReadKeys(s: Store, r: nat)
    requires IsDict(s, Link(r))
    ensures Read(s, Link(r)).Obj? && Read(s, Link(r)).fields.Keys == s[r].fields.Keys
  {
  }

  lemma ListHolds(s: Store, r: nat, i: nat)
    requires r < |s| && s[r].List? && i < |s[r].items|
    ensures In(s, s[r].items[i]) && Later(s[r].items[i], r, |s|)
    ensures Parts(s, s[r].items[i]) <= Parts(s, Link(r))
  {
    assert LaterNode(s[r], r, |s|);
  }

  /** What a cell is made of decides everything about it. */
  lemma {:induction false} Framed(s: Store, after: Store, c: Cell)
    requires In(s, c) && forall x :: x in Parts(s, c) ==> x < |after| && after[x] == s[x]
    ensures Same(s, after, c)
    decreases Height(s, c)
  {
    if c.Link? {
      assert c.ref in Parts(s, c);
      if s[c.ref].Dict? {
        forall k | k in s[c.ref].fields ensures Same(s, after, s[c.ref].fields[k]) {
          DictHolds(s, c.ref, k);
          Framed(s, after, s[c.ref].fields[k]);
        }
        SameFields(s, after, c.ref);
      } else {
        forall i | 0 <= i < |s[c.ref].items| ensures Same(s, after, s[c.ref].items[i]) {
          ListHolds(s, c.ref, i);
          Framed(s, after, s[c.ref].items[i]);
        }
        SameItems(s, after, c.ref);
      }
    }
  }

  lemma SameFields(s: Store, after: Store, r: nat)
    requires IsDict(s, Link(r)) && r < |after| && after[r] == s[r]
    requires forall k :: k in s[r].fields ==> In(s, s[r].fields[k]) && Same(s, after, s[r].fields[k])
    ensures Same(s, after, Link(r))
  {
    assert Read(after, Link(r)).fields == Read(s, Link(r)).fields;
    assert Parts(after, Link(r)) == Parts(s, Link(r));
    assert Writable(after, Link(r)) == Writable(s, Link(r));
  }

  lemma SameItems(s: Store, after: Store, r: nat)
    requires r < |s| && s[r].List? && r < |after| && after[r] == s[r]
    requires forall i :: 0 <= i < |s[r].items| ==> In(s, s[r].items[i]) && Same(s, after, s[r].items[i])
    ensures Same(s, after, Link(r))
  {
    assert Read(after, Link(r)).items == Read(s, Link(r)).items;
    assert Parts(after, Link(r)) == Parts(s, Link(r));
  }

  // ----- one key of a mapping is merged -----

  /** Every node that is not `r` and not one of `touched` is as before. */
  ghost predicate Untouched(s: Store, after: Store, r: nat, touched: set<nat>) {
    |s| <= |after| && forall x | 0 <= x < |s| && x != r && x !in touched :: after[x] == s[x]
  }

  ghost predicate SameKeysBut(s: Store, after: Store, r: nat, key: string)
    requires IsDict(s, Link(r)) && IsDict(after, Link(r))
  {
    && after[r].fields.Keys == s[r].fields.Keys + {key}
    && forall j | j in s[r].fields && j != key :: after[r].fields[j] == s[r].fields[j]
  }

  /** The cells under the other keys are the same, and show the same unless they may share. */
  ghost predicate OthersKept(s: Store, after: Store, r: nat, key: string, free: set<string>)
    requires IsDict(s, Link(r)) && IsDict(after, Link(r))
  {
    && SameKeysBut(s, after, r, key)
    && forall j | j in s[r].fields && j != key && j !in free :: In(s, s[r].fields[j]) && Same(s, after, s[r].fields[j])
  }

  /** What the new child is made of is new, or belonged to the child that was merged. */
  ghost predicate ChildConfined(s: Store, after: Store, r: nat, key: string, live: set<string>, free: set<string>)
    requires IsDict(s, Link(r)) && IsDict(after, Link(r)) && key in after[r].fields && In(after, after[r].fields[key])
  {
    var fields, c := s[r].fields, after[r].fields[key];
    && (forall x | x in Parts(after, c) ::
          x >= |s| || (key in fields && key !in free && In(s, fields[key]) && x in Parts(s, fields[key])))
    && (forall x | x in Writable(after, c) ::
          x >= |s| || (key in fields && key in live && In(s, fields[key]) && x in Writable(s, fields[key])))
  }

  lemma FieldReplaced(s: Store, after: Store, r: nat, key: string, touched: set<nat>, live: set<string>, free: set<string>)
    requires IsDict(s, Link(r)) && IsDict(after, Link(r)) && Apart(s, r, live, free) && live !! free
    requires Untouched(s, after, r, touched) && SameKeysBut(s, after, r, key)
    requires forall j :: j in s[r].fields && j != key && j !in free && In(s, s[r].fields[j]) ==> touched !! Parts(s, s[r].fields[j])
    requires In(after, after[r].fields[key]) && Unshared(after, after[r].fields[key])
    requires ChildConfined(s, after, r, key, live, free)
    ensures OthersKept(s, after, r, key, free)
    ensures Apart(after, r, live + {key}, free - {key})
  {
    hide Read, Parts, Writable, Unshared;
    var fields := s[r].fields;
    forall j | j in fields && j != key && j !in free ensures In(s, fields[j]) && Same(s, after, fields[j]) {
      DictHolds(s, r, j);
      Framed(s, after, fields[j]);
    }
    forall k, j | k in after[r].fields && k in live + {key} && j in after[r].fields && j != k && j !in free - {key}
      ensures Writable(after, after[r].fields[k]) !! Parts(after, after[r].fields[j])
    {
      DictHolds(after, r, j);
      DictHolds(after, r, k);
      if k != key {
        DictHolds(s, r, k);
      }
      if j != key {
        DictHolds(s, r, j);
      }
    }
  }

  // ----- the merge shows the merged value -----

  /** Only the mappings that can be written to change, and what is added is new. */
  ghost predicate Confined(s: Store, after: Store, r: nat)
    requires IsDict(s, Link(r)) && IsDict(after, Link(r))
  {
    && Untouched(s, after, r, Writable(s, Link(r)))
    && (forall x | x in Parts(after, Link(r)) :: x >= |s| || x in Parts(s, Link(r)))
    && (forall x | x in Writable(after, Link(r)) :: x >= |s| || x in Writable(s, Link(r)))
  }

  ghost predicate Shows(s: Store, after: Store, r: nat, json: Json)
    requires IsDict(s, Link(r)) && IsDict(after, Link(r))
  {
    Read(after, Link(r)) == json && Unshared(after, Link(r)) && Confined(s, after, r)
  }

  lemma {:induction false} MergeShows(s: Store, r: nat, updates: Json, order: Order)
    requires IsDict(s, Link(r)) && Unshared(s, Link(r)) && updates.Obj? && Ordered(updates, order)
    ensures Shows(s, MergeInto(s, r, updates, order), r, Merge(Read(s, Link(r)), updates))
    decreases updates, 1
  {
    MergeKeysShow(s, r, updates, order, |order.keys|);
    assert order.keys[..|order.keys|] == order.keys;
    MergedAll(Read(s, Link(r)), updates);
  }

  lemma {:induction false} MergeKeysShow(s: Store, r: nat, updates: Json, order: Order, n: nat)
    requires IsDict(s, Link(r)) && Unshared(s, Link(r)) && updates.Obj? && Ordered(updates, order) && n <= |order.keys|
    ensures Elements(order.keys[..n]) <= updates.fields.Keys
    ensures Shows(s, MergeKeys(s, r, updates, order, n), r, MergedOn(Read(s, Link(r)), updates, Elements(order.keys[..n])))
    decreases updates, 0, n
  {
    hide Read, Parts, Writable, Unshared, Apart, MergeKey, MergedOn, MergedAt, With;
    if n == 0 {
      assert Elements(order.keys[..n]) == {};
      MergedNone(Read(s, Link(r)), updates);
    } else {
      var key, done := order.keys[n - 1], order.keys[..n - 1];
      MergeKeysShow(s, r, updates, order, n - 1);
      var now := MergeKeys(s, r, updates, order, n - 1);
      assert key in Elements(order.keys);
      KeyShows(now, r, key, updates.fields[key], order.inner[key]);
      assert order.keys[..n] == done + [key];
      assert Elements(order.keys[..n]) == Elements(done) + {key};
      MergedStep(Read(s, Link(r)), updates, Elements(done), key);
    }
  }

  lemma {:induction false} KeyShows(s: Store, r: nat, key: string, update: Json, order: Order)
    requires IsDict(s, Link(r)) && Unshared(s, Link(r)) && Ordered(update, order)
    ensures Shows(s, MergeKey(s, r, key, update, order), r, With(Read(s, Link(r)), key, MergedAt(Read(s, Link(r)), key, update)))
    decreases update, 5
  {
    hide MergeInto, PlaceAt;
    var fields, after := s[r].fields, MergeKey(s, r, key, update, order);
    if key in fields && IsDict(s, fields[key]) && update.Obj? {
      FieldMerged(s, r, key, update, order, fields.Keys, {});
    } else {
      FieldPlaced(s, r, key, update, order, fields.Keys, {});
    }
    Reassembled(s, after, r, key);
  }

  lemma Reassembled(s: Store, after: Store, r: nat, key: string)
    requires IsDict(s, Link(r)) && IsDict(after, Link(r))
    requires OthersKept(s, after, r, key, {}) && Apart(after, r, s[r].fields.Keys + {key}, {})
    requires Untouched(s, after, r, Writable(s, Link(r)))
    requires In(after, after[r].fields[key]) && ChildConfined(s, after, r, key, s[r].fields.Keys, {})
    ensures Shows(s, after, r, With(Read(s, Link(r)), key, Read(after, after[r].fields[key])))
  {
    hide Read, Parts, Writable, Unshared, Apart;
    ReadAgain(s, after, r, key);
    PartsAgain(s, after, r, key);
    ApartShows(after, r, key, s[r].fields.Keys);
  }

  lemma ApartShows(s: Store, r: nat, key: string, keys: set<string>)
    requires IsDict(s, Link(r)) && Apart(s, r, keys + {key}, {}) && s[r].fields.Keys == keys + {key}
    ensures Unshared(s, Link(r))
  {
  }

  lemma ReadAgain(s: Store, after: Store, r: nat, key: string)
    requires IsDict(s, Link(r)) && IsDict(after, Link(r)) && OthersKept(s, after, r, key, {})
    ensures In(after, after[r].fields[key])
    ensures Read(after, Link(r)) == With(Read(s, Link(r)), key, Read(after, after[r].fields[key]))
  {
    hide Read, Parts, Writable, Unshared;
    DictHolds(after, r, key);
    ReadKeys(s, r);
    var shown := Read(s, Link(r)).fields[key := Read(after, after[r].fields[key])];
    forall j | j in after[r].fields ensures Read(after, Link(r)).fields[j] == shown[j] {
      DictHolds(after, r, j);
      if j != key {
        DictHolds(s, r, j);
      }
    }
    assert Read(after, Link(r)).fields == shown;
  }

  lemma PartsAgain(s: Store, after: Store, r: nat, key: string)
    requires IsDict(s, Link(r)) && IsDict(after, Link(r)) && OthersKept(s, after, r, key, {})
    requires Untouched(s, after, r, Writable(s, Link(r)))
    requires In(after, after[r].fields[key]) && ChildConfined(s, after, r, key, s[r].fields.Keys, {})
    ensures Confined(s, after, r)
  {
    forall x | x in Parts(after, Link(r)) ensures x >= |s| || x in Parts(s, Link(r)) {
      if x != r {
        var j :| j in after[r].fields && x in Parts(after, after[r].fields[j]);
        if j in s[r].fields {
          DictHolds(s, r, j);
        }
      }
    }
    forall x | x in Writable(after, Link(r)) ensures x >= |s| || x in Writable(s, Link(r)) {
      if x != r {
        var j :| j in after[r].fields && x in Writable(after, after[r].fields[j]);
        if j in s[r].fields {
          DictHolds(s, r, j);
        }
      }
    }
  }

  lemma OwnPart(s: Store, c: Cell)
    requires IsDict(s, c)
    ensures c.ref in Writable(s, c)
  {
  }

  /** The value under the key is the merged one; the other keys keep theirs and stay apart. */
  lemma {:induction false} FieldMerged(s: Store, r: nat, key: string, update: Json, order: Order, live: set<string>, free: set<string>)
    requires IsDict(s, Link(r)) && Apart(s, r, live, free) && live !! free
    requires key in s[r].fields && key in live && IsDict(s, s[r].fields[key]) && update.Obj? && Ordered(update, order)
    ensures var after := MergeInto(s, s[r].fields[key].ref, update, order);
            && OthersKept(s, after, r, key, free) && Apart(after, r, live + {key}, free - {key})
            && Untouched(s, after, r, Writable(s, Link(r)))
            && ChildConfined(s, after, r, key, live, free)
            && Read(after, after[r].fields[key]) == Merge(Read(s, s[r].fields[key]), update)
    decreases update, 3
  {
    hide Read, Parts, Writable, Unshared, MergeInto;
    var c := s[r].fields[key];
    DictHolds(s, r, key);
    OwnPart(s, c);
    MergeShows(s, c.ref, update, order);
    var after := MergeInto(s, c.ref, update, order);
    FieldReplaced(s, after, r, key, Writable(s, c), live, free);
  }

  lemma {:induction false} FieldPlaced(s: Store, r: nat, key: string, json: Json, order: Order, live: set<string>, free: set<string>)
    requires IsDict(s, Link(r)) && Apart(s, r, live, free) && live !! free && Ordered(json, order)
    ensures var after := PlaceAt(s, r, key, json, order);
            && OthersKept(s, after, r, key, free) && Apart(after, r, live + {key}, free - {key})
            && Untouched(s, after, r, {})
            && In(after, after[r].fields[key]) && ChildConfined(s, after, r, key, live, free)
            && Read(after, after[r].fields[key]) == json
    decreases json, 4
  {
    hide Read, Parts, Writable, Unshared;
    PlaceShows(s, json, order);
    var (placed, c) := Place(s, json, order);
    var after := PlaceAt(s, r, key, json, order);
    Framed(placed, after, c);
    FieldReplaced(s, after, r, key, {}, live, free);
  }

  lemma {:induction false} PlaceShows(s: Store, json: Json, order: Order)
    requires Ordered(json, order)
    ensures var (placed, c) := Place(s, json, order);
            && Read(placed, c) == json && Unshared(placed, c)
            && (forall x | 0 <= x < |s| :: placed[x] == s[x])
            && (forall x | x in Parts(placed, c) :: x >= |s|)
    decreases json, 2
  {
    if json.Obj? {
      MergeShows(Alloc(s), |s|, json, order);
      MergeIntoEmpty(json);
      assert Read(Alloc(s), Link(|s|)) == Obj(map[]);
    }
  }

  // ----- where mappings are shared, some merge shows something else -----

  function Single(key: string, json: Json): Json {
    Obj(map[key := json])
  }

  function SingleOrder(key: string, order: Order): Order {
    Order([key], map[key := order])
  }

  lemma SingleMerge(s: Store, r: nat, key: string, update: Json, order: Order)
    requires IsDict(s, Link(r)) && Ordered(update, order)
    ensures Ordered(Single(key, update), SingleOrder(key, order))
    ensures MergeInto(s, r, Single(key, update), SingleOrder(key, order)) == MergeKey(s, r, key, update, order)
  {
    assert Elements([key]) == {key};
    assert MergeKeys(s, r, Single(key, update), SingleOrder(key, order), 0) == s;
  }

  /** A value that differs from what the mapping holds under the empty key. */
  function Novel(s: Store, x: nat): (json: Json)
    requires IsDict(s, Link(x))
    ensures !json.Obj? && ("" in s[x].fields ==> In(s, s[x].fields[""]) && Read(s, s[x].fields[""]) != json)
  {
    assert LaterNode(s[x], x, |s|);
    if "" in s[x].fields && Read(s, s[x].fields[""]) == Null then Flag(true) else Null
  }

  function WrittenTo(s: Store, x: nat, key: string, json: Json): Store
    requires IsDict(s, Link(x)) && !json.Obj?
  {
    Bind(s, x, key, Leaf(json))
  }

  function Marked(s: Store, x: nat): Store
    requires IsDict(s, Link(x))
  {
    WrittenTo(s, x, "", Novel(s, x))
  }

  /** Evidence that writes one value to one mapping only. */
  lemma AimHere(s: Store, r: nat, key: string, json: Json)
    requires IsDict(s, Link(r)) && !json.Obj?
    ensures Single(key, json).Obj? && Ordered(Single(key, json), SingleOrder(key, Order([], map[])))
    ensures MergeInto(s, r, Single(key, json), SingleOrder(key, Order([], map[]))) == WrittenTo(s, r, key, json)
  {
    SingleMerge(s, r, key, json, Order([], map[]));
    assert Place(s, json, Order([], map[])) == (s, Leaf(json));
  }

  lemma {:induction false} Aim(s: Store, r: nat, x: nat, key: string, json: Json) returns (updates: Json, order: Order)
    requires IsDict(s, Link(r)) && x in Writable(s, Link(r)) && !json.Obj?
    ensures updates.Obj? && Ordered(updates, order) && IsDict(s, Link(x)) && MergeInto(s, r, updates, order) == WrittenTo(s, x, key, json)
    decreases Height(s, Link(r))
  {
    hide MergeInto, WrittenTo, Ordered, Read, Parts, Single, SingleOrder;
    if x == r {
      AimHere(s, r, key, json);
      updates, order := Single(key, json), SingleOrder(key, Order([], map[]));
    } else {
      var k :| k in s[r].fields && x in Writable(s, s[r].fields[k]);
      DictHolds(s, r, k);
      var u, o := Aim(s, s[r].fields[k].ref, x, key, json);
      AimBelow(s, r, k, u, o);
      updates, order := Single(k, u), SingleOrder(k, o);
    }
  }

  lemma AimBelow(s: Store, r: nat, k: string, update: Json, order: Order)
    requires IsDict(s, Link(r)) && k in s[r].fields && IsDict(s, s[r].fields[k]) && update.Obj? && Ordered(update, order)
    ensures Single(k, update).Obj? && Ordered(Single(k, update), SingleOrder(k, order))
    ensures MergeInto(s, r, Single(k, update), SingleOrder(k, order)) == MergeInto(s, s[r].fields[k].ref, update, order)
  {
    SingleMerge(s, r, k, update, order);
  }

  /** Everything that has the mapping as a part shows the write. */
  lemma {:induction false} WriteShows(s: Store, x: nat, c: Cell)
    requires IsDict(s, Link(x)) && In(s, c) && x in Parts(s, c)
    ensures In(Marked(s, x), c) && Read(Marked(s, x), c) != Read(s, c)
    decreases Height(s, c)
  {
    var after, r := Marked(s, x), c.ref;
    if r == x {
      DictHolds(after, x, "");
      ReadKeys(s, x);
      if "" in s[x].fields {
        DictHolds(s, x, "");
      }
    } else if s[r].Dict? {
      var k :| k in s[r].fields && x in Parts(s, s[r].fields[k]);
      DictHolds(s, r, k);
      DictHolds(after, r, k);
      WriteShows(s, x, s[r].fields[k]);
    } else {
      var i :| 0 <= i < |s[r].items| && x in Parts(s, s[r].items[i]);
      ListHolds(s, r, i);
      WriteShows(s, x, s[r].items[i]);
      assert Read(after, c).items[i] != Read(s, c).items[i];
    }
  }

  lemma {:induction false} SharedFails(s: Store, r: nat) returns (updates: Json, order: Order)
    requires IsDict(s, Link(r)) && !Unshared(s, Link(r))
    ensures updates.Obj? && Ordered(updates, order)
    ensures Read(MergeInto(s, r, updates, order), Link(r)) != Merge(Read(s, Link(r)), updates)
    decreases Height(s, Link(r))
  {
    var fields := s[r].fields;
    if k :| k in fields && In(s, fields[k]) && !Unshared(s, fields[k]) {
      var u, o := SharedFails(s, fields[k].ref);
      updates, order := Single(k, u), SingleOrder(k, o);
      FailsAbove(s, r, k, u, o);
    } else {
      var k, j :| k in fields && j in fields && j != k && In(s, fields[k]) && In(s, fields[j])
                  && !(Writable(s, fields[k]) !! Parts(s, fields[j]));
      var x :| x in Writable(s, fields[k]) && x in Parts(s, fields[j]);
      var u, o := AimAside(s, r, k, j, x);
      updates, order := Single(k, u), SingleOrder(k, o);
    }
  }

  /** A write through one key that another key shows. */
  lemma AimAside(s: Store, r: nat, k: string, j: string, x: nat) returns (update: Json, order: Order)
    requires IsDict(s, Link(r)) && k in s[r].fields && j in s[r].fields && j != k
    requires In(s, s[r].fields[k]) && In(s, s[r].fields[j]) && x in Writable(s, s[r].fields[k]) && x in Parts(s, s[r].fields[j])
    ensures update.Obj? && Ordered(Single(k, update), SingleOrder(k, order)) && Ordered(update, order)
    ensures IsDict(s, s[r].fields[k]) && In(MergeInto(s, s[r].fields[k].ref, update, order), s[r].fields[j])
    ensures Read(MergeInto(s, s[r].fields[k].ref, update, order), s[r].fields[j]) != Read(s, s[r].fields[j])
    ensures Read(MergeInto(s, r, Single(k, update), SingleOrder(k, order)), Link(r)) != Merge(Read(s, Link(r)), Single(k, update))
  {
    var c, d := s[r].fields[k], s[r].fields[j];
    WritableDict(s, c, x);
    DictHolds(s, r, k);
    DictHolds(s, r, j);
    update, order := Aim(s, c.ref, x, "", Novel(s, x));
    WriteShows(s, x, d);
    hide Parts, Novel, Writable, MergeInto, Ordered, Single, SingleOrder, Read;
    AimBelow(s, r, k, update, order);
    AsideShows(s, r, k, j, update, Marked(s, x));
  }

  lemma WritableDict(s: Store, c: Cell, x: nat)
    requires In(s, c) && x in Writable(s, c)
    ensures IsDict(s, c) && IsDict(s, Link(x))
  {
  }

  lemma AsideShows(s: Store, r: nat, k: string, j: string, update: Json, after: Store)
    requires IsDict(s, Link(r)) && IsDict(after, Link(r)) && after[r] == s[r] && j in s[r].fields && j != k
    requires In(s, s[r].fields[j]) && In(after, s[r].fields[j]) && Read(after, s[r].fields[j]) != Read(s, s[r].fields[j])
    ensures Read(after, Link(r)) != Merge(Read(s, Link(r)), Single(k, update))
  {
    hide Read;
    ReadKeys(s, r);
    DictHolds(s, r, j);
    DictHolds(after, r, j);
  }

  lemma FailsAbove(s: Store, r: nat, k: string, update: Json, order: Order)
    requires IsDict(s, Link(r)) && k in s[r].fields && IsDict(s, s[r].fields[k])
    requires update.Obj? && Ordered(update, order)
    requires var c := s[r].fields[k]; Read(MergeInto(s, c.ref, update, order), c) != Merge(Read(s, c), update)
    ensures Ordered(Single(k, update), SingleOrder(k, order))
    ensures Read(MergeInto(s, r, Single(k, update), SingleOrder(k, order)), Link(r)) != Merge(Read(s, Link(r)), Single(k, update))
  {
    SingleMerge(s, r, k, update, order);
    DictHolds(s, r, k);
    DictHolds(MergeInto(s, s[r].fields[k].ref, update, order), r, k);
  }

  /** In-place merging shows the merge of the values for all evidence exactly when no mapping it can write to is shared. */
  lemma InPlaceMergeExactly(s: Store, r: nat)
    requires IsDict(s, Link(r))
    ensures Unshared(s, Link(r)) <==>
            forall updates: Json, order: Order | updates.Obj? && Ordered(updates, order) ::
              Read(MergeInto(s, r, updates, order), Link(r)) == Merge(Read(s, Link(r)), updates)
  {
    if Unshared(s, Link(r)) {
      forall updates: Json, order: Order | updates.Obj? && Ordered(updates, order)
        ensures Read(MergeInto(s, r, updates, order), Link(r)) == Merge(Read(s, Link(r)), updates)
      {
        MergeShows(s, r, updates, order);
      }
    } else {
      var updates, order := SharedFails(s, r);
    }
  }

  // ----- deep copies of what is on the heap -----

  function Moved(c: Cell, far: nat): Cell {
    if c.Link? then Link(c.ref + far) else c
  }

  function MovedNode(node: Node, far: nat): Node {
    match node
    case Dict(fields) => Dict(map k | k in fields :: Moved(fields[k], far))
    case List(items) => List(seq(|items|, i requires 0 <= i < |items| => Moved(items[i], far)))
  }

  /** `copy.deepcopy` keeps sharing: what two keys share, their copies share. Nodes that nothing reaches are copied along. */
  function Copied(s: Store): (after: Store)
    ensures s <= after && |after| == 2 * |s|
    ensures forall c :: IsDict(s, c) ==> IsDict(after, Moved(c, |s|))
  {
    var nodes := s + seq(|s|, r requires 0 <= r < |s| => MovedNode(s[r], |s|));
    CopiedForward(s, nodes);
    nodes
  }

  lemma CopiedForward(s: Store, nodes: seq<Node>)
    requires nodes == s + seq(|s|, r requires 0 <= r < |s| => MovedNode(s[r], |s|))
    ensures Forward(nodes)
  {
    forall r | 0 <= r < |nodes| ensures LaterNode(nodes[r], r, |nodes|) {
      assert LaterNode(s[if r < |s| then r else r - |s|], if r < |s| then r else r - |s|, |s|);
    }
  }

  ghost function Shifted(parts: set<nat>, far: nat): set<nat> {
    set x | x in parts :: x + far
  }

  /** One cell shows what the other does, and is made of the same nodes, `far` addresses on. */
  ghost predicate Like(s: Store, c: Cell, t: Store, m: Cell, far: nat) {
    && In(s, c) && In(t, m)
    && Read(t, m) == Read(s, c)
    && Parts(t, m) == Shifted(Parts(s, c), far) && Writable(t, m) == Shifted(Writable(s, c), far)
    && (Unshared(t, m) <==> Unshared(s, c))
  }

  lemma ShiftedForth(parts: set<nat>, shifted: set<nat>, far: nat)
    requires shifted == Shifted(parts, far)
    ensures forall x :: x in parts ==> x + far in shifted
  {
  }

  lemma ShiftedBack(parts: set<nat>, shifted: set<nat>, far: nat)
    requires shifted == Shifted(parts, far)
    ensures forall x :: x in shifted ==> x >= far && x - far in parts
  {
  }

  lemma LikeForth(s: Store, c: Cell, t: Store, m: Cell, far: nat)
    requires Like(s, c, t, m, far)
    ensures In(s, c) && In(t, m)
    ensures forall x :: x in Parts(s, c) ==> x + far in Parts(t, m)
    ensures forall x :: x in Writable(s, c) ==> x + far in Writable(t, m)
  {
    hide Read, Parts, Writable, Unshared, Shifted;
    ShiftedForth(Parts(s, c), Parts(t, m), far);
    ShiftedForth(Writable(s, c), Writable(t, m), far);
  }

  lemma LikeBack(s: Store, c: Cell, t: Store, m: Cell, far: nat)
    requires Like(s, c, t, m, far)
    ensures In(s, c) && In(t, m)
    ensures forall x :: x in Parts(t, m) ==> x >= far && x - far in Parts(s, c)
    ensures forall x :: x in Writable(t, m) ==> x >= far && x - far in Writable(s, c)
  {
    hide Read, Parts, Writable, Unshared, Shifted;
    ShiftedBack(Parts(s, c), Parts(t, m), far);
    ShiftedBack(Writable(s, c), Writable(t, m), far);
  }

  lemma DictParts(s: Store, r: nat, x: nat)
    requires IsDict(s, Link(r))
    ensures x in Parts(s, Link(r)) <==> x == r || exists k :: k in s[r].fields && In(s, s[r].fields[k]) && x in Parts(s, s[r].fields[k])
  {
    assert LaterNode(s[r], r, |s|);
  }

  lemma DictWritable(s: Store, r: nat, x: nat)
    requires IsDict(s, Link(r))
    ensures x in Writable(s, Link(r)) <==> x == r || exists k :: k in s[r].fields && In(s, s[r].fields[k]) && x in Writable(s, s[r].fields[k])
  {
    assert LaterNode(s[r], r, |s|);
  }

  lemma ListParts(s: Store, r: nat, x: nat)
    requires r < |s| && s[r].List?
    ensures x in Parts(s, Link(r)) <==> x == r || exists i :: 0 <= i < |s[r].items| && In(s, s[r].items[i]) && x in Parts(s, s[r].items[i])
  {
    assert LaterNode(s[r], r, |s|);
  }

  lemma LikeReads(s: Store, c: Cell, t: Store, m: Cell, far: nat)
    requires Like(s, c, t, m, far)
    ensures In(s, c) && In(t, m) && Read(t, m) == Read(s, c)
  {
  }

  lemma LikeDict(s: Store, r: nat, t: Store, far: nat)
    requires IsDict(s, Link(r)) && IsDict(t, Link(r + far)) && t[r + far].fields.Keys == s[r].fields.Keys
    requires forall k :: k in s[r].fields ==> Like(s, s[r].fields[k], t, t[r + far].fields[k], far)
    ensures Like(s, Link(r), t, Link(r + far), far)
  {
    hide Read, Parts, Writable, Like, Apart, Shifted;
    LikeDictRead(s, r, t, far);
    LikeDictParts(s, r, t, far);
    LikeDictWritable(s, r, t, far);
    LikeApart(s, r, t, far, s[r].fields.Keys, {});
    LikeFrom(s, r, t, far);
  }

  lemma LikeFrom(s: Store, r: nat, t: Store, far: nat)
    requires IsDict(s, Link(r)) && IsDict(t, Link(r + far)) && t[r + far].fields.Keys == s[r].fields.Keys
    requires Read(t, Link(r + far)) == Read(s, Link(r))
    requires Parts(t, Link(r + far)) == Shifted(Parts(s, Link(r)), far) && Writable(t, Link(r + far)) == Shifted(Writable(s, Link(r)), far)
    requires Apart(s, r, s[r].fields.Keys, {}) <==> Apart(t, r + far, s[r].fields.Keys, {})
    ensures Like(s, Link(r), t, Link(r + far), far)
  {
    hide Read, Parts, Writable, Apart, Shifted;
  }

  lemma LikeDictRead(s: Store, r: nat, t: Store, far: nat)
    requires IsDict(s, Link(r)) && IsDict(t, Link(r + far)) && t[r + far].fields.Keys == s[r].fields.Keys
    requires forall k :: k in s[r].fields ==> Like(s, s[r].fields[k], t, t[r + far].fields[k], far)
    ensures Read(t, Link(r + far)) == Read(s, Link(r))
  {
    hide Read, Parts, Writable, Unshared, Shifted, Like;
    var q := r + far;
    ReadKeys(s, r);
    ReadKeys(t, q);
    forall k | k in s[r].fields ensures Read(t, Link(q)).fields[k] == Read(s, Link(r)).fields[k] {
      LikeReads(s, s[r].fields[k], t, t[q].fields[k], far);
      DictHolds(s, r, k);
      DictHolds(t, q, k);
    }
    assert Read(t, Link(q)).fields == Read(s, Link(r)).fields;
  }

  lemma LikeDictParts(s: Store, r: nat, t: Store, far: nat)
    requires IsDict(s, Link(r)) && IsDict(t, Link(r + far)) && t[r + far].fields.Keys == s[r].fields.Keys
    requires forall k :: k in s[r].fields ==> Like(s, s[r].fields[k], t, t[r + far].fields[k], far)
    ensures Parts(t, Link(r + far)) == Shifted(Parts(s, Link(r)), far)
  {
    hide Read, Parts, Writable, Unshared, Apart, Like;
    forall x | x in Parts(t, Link(r + far)) ensures x in Shifted(Parts(s, Link(r)), far) {
      if k :| k in s[r].fields && In(t, t[r + far].fields[k]) && x in Parts(t, t[r + far].fields[k]) {
        LikeBack(s, s[r].fields[k], t, t[r + far].fields[k], far);
        DictHolds(s, r, k);
      } else {
        DictParts(t, r + far, x);
        DictParts(s, r, r);
      }
    }
    forall x | x in Parts(s, Link(r)) ensures x + far in Parts(t, Link(r + far)) {
      if k :| k in s[r].fields && In(s, s[r].fields[k]) && x in Parts(s, s[r].fields[k]) {
        LikeForth(s, s[r].fields[k], t, t[r + far].fields[k], far);
        DictHolds(t, r + far, k);
      } else {
        DictParts(s, r, x);
        DictParts(t, r + far, r + far);
      }
    }
  }

  lemma LikeDictWritable(s: Store, r: nat, t: Store, far: nat)
    requires IsDict(s, Link(r)) && IsDict(t, Link(r + far)) && t[r + far].fields.Keys == s[r].fields.Keys
    requires forall k :: k in s[r].fields ==> Like(s, s[r].fields[k], t, t[r + far].fields[k], far)
    ensures Writable(t, Link(r + far)) == Shifted(Writable(s, Link(r)), far)
  {
    hide Read, Parts, Writable, Unshared, Apart, Like;
    forall x | x in Writable(t, Link(r + far)) ensures x in Shifted(Writable(s, Link(r)), far) {
      if k :| k in s[r].fields && In(t, t[r + far].fields[k]) && x in Writable(t, t[r + far].fields[k]) {
        LikeBack(s, s[r].fields[k], t, t[r + far].fields[k], far);
        DictHolds(s, r, k);
      } else {
        DictWritable(t, r + far, x);
        DictWritable(s, r, r);
      }
    }
    forall x | x in Writable(s, Link(r)) ensures x + far in Writable(t, Link(r + far)) {
      if k :| k in s[r].fields && In(s, s[r].fields[k]) && x in Writable(s, s[r].fields[k]) {
        LikeForth(s, s[r].fields[k], t, t[r + far].fields[k], far);
        DictHolds(t, r + far, k);
      } else {
        DictWritable(s, r, x);
        DictWritable(t, r + far, r + far);
      }
    }
  }

  lemma ShiftedApart(a: set<nat>, b: set<nat>, far: nat)
    ensures Shifted(a, far) !! Shifted(b, far) <==> a !! b
  {
    if x :| x in a && x in b {
      assert x + far in Shifted(a, far) && x + far in Shifted(b, far);
    }
  }

  lemma LikeApart(s: Store, r: nat, t: Store, far: nat, live: set<string>, free: set<string>)
    requires IsDict(s, Link(r)) && IsDict(t, Link(r + far)) && t[r + far].fields.Keys == s[r].fields.Keys
    requires forall k :: k in s[r].fields ==> Like(s, s[r].fields[k], t, t[r + far].fields[k], far)
    ensures Apart(s, r, live, free) <==> Apart(t, r + far, live, free)
  {
    hide Read, Parts, Writable, Unshared, Shifted;
    forall k, j | k in s[r].fields && j in s[r].fields
      ensures Writable(s, s[r].fields[k]) !! Parts(s, s[r].fields[j])
              <==> Writable(t, t[r + far].fields[k]) !! Parts(t, t[r + far].fields[j])
    {
      ShiftedApart(Writable(s, s[r].fields[k]), Parts(s, s[r].fields[j]), far);
    }
  }

  lemma LikeList(s: Store, r: nat, t: Store, far: nat)
    requires r < |s| && s[r].List? && r + far < |t| && t[r + far].List? && |t[r + far].items| == |s[r].items|
    requires forall i :: 0 <= i < |s[r].items| ==> Like(s, s[r].items[i], t, t[r + far].items[i], far)
    ensures Like(s, Link(r), t, Link(r + far), far)
  {
    assert Read(t, Link(r + far)).items == Read(s, Link(r)).items;
    LikeListParts(s, r, t, far);
  }

  lemma LikeListParts(s: Store, r: nat, t: Store, far: nat)
    requires r < |s| && s[r].List? && r + far < |t| && t[r + far].List? && |t[r + far].items| == |s[r].items|
    requires forall i :: 0 <= i < |s[r].items| ==> Like(s, s[r].items[i], t, t[r + far].items[i], far)
    ensures Parts(t, Link(r + far)) == Shifted(Parts(s, Link(r)), far)
  {
    hide Read, Parts, Writable, Unshared, Apart, Like;
    var items := t[r + far].items;
    forall x | x in Parts(t, Link(r + far)) ensures x in Shifted(Parts(s, Link(r)), far) {
      if i :| 0 <= i < |items| && In(t, items[i]) && x in Parts(t, items[i]) {
        LikeBack(s, s[r].items[i], t, t[r + far].items[i], far);
        ListHolds(s, r, i);
      } else {
        ListParts(t, r + far, x);
        ListParts(s, r, r);
      }
    }
    forall x | x in Parts(s, Link(r)) ensures x + far in Parts(t, Link(r + far)) {
      if i :| 0 <= i < |s[r].items| && In(s, s[r].items[i]) && x in Parts(s, s[r].items[i]) {
        LikeForth(s, s[r].items[i], t, t[r + far].items[i], far);
        ListHolds(t, r + far, i);
      } else {
        ListParts(s, r, x);
        ListParts(t, r + far, r + far);
      }
    }
  }

  lemma LikeLeaf(s: Store, c: Cell, t: Store, far: nat)
    requires In(s, c) && c.Leaf?
    ensures Like(s, c, t, c, far)
  {
  }

  lemma CopiedDict(s: Store, r: nat)
    requires IsDict(s, Link(r))
    ensures IsDict(Copied(s), Link(r + |s|)) && Copied(s)[r + |s|].fields.Keys == s[r].fields.Keys
    ensures forall k :: k in s[r].fields ==> Copied(s)[r + |s|].fields[k] == Moved(s[r].fields[k], |s|)
  {
    assert Copied(s)[r + |s|] == MovedNode(s[r], |s|);
  }

  lemma CopiedList(s: Store, r: nat)
    requires r < |s| && s[r].List?
    ensures r + |s| < |Copied(s)| && Copied(s)[r + |s|].List? && |Copied(s)[r + |s|].items| == |s[r].items|
    ensures forall i :: 0 <= i < |s[r].items| ==> Copied(s)[r + |s|].items[i] == Moved(s[r].items[i], |s|)
  {
    assert Copied(s)[r + |s|] == MovedNode(s[r], |s|);
  }

  lemma {:induction false} CopyShows(s: Store, c: Cell)
    requires In(s, c)
    ensures Like(s, c, Copied(s), Moved(c, |s|), |s|)
    decreases Height(s, c)
  {
    hide Read, Parts, Writable, Unshared, Shifted, Copied, MovedNode, Like;
    if c.Leaf? {
      LikeLeaf(s, c, Copied(s), |s|);
    } else if s[c.ref].Dict? {
      CopiedDict(s, c.ref);
      forall k | k in s[c.ref].fields ensures Like(s, s[c.ref].fields[k], Copied(s), Copied(s)[c.ref + |s|].fields[k], |s|) {
        DictHolds(s, c.ref, k);
        CopyShows(s, s[c.ref].fields[k]);
      }
      LikeDict(s, c.ref, Copied(s), |s|);
    } else {
      CopiedList(s, c.ref);
      forall i | 0 <= i < |s[c.ref].items| ensures Like(s, s[c.ref].items[i], Copied(s), Copied(s)[c.ref + |s|].items[i], |s|) {
        ListHolds(s, c.ref, i);
        CopyShows(s, s[c.ref].items[i]);
      }
      LikeList(s, c.ref, Copied(s), |s|);
    }
  }

  lemma CopiedApart(s: Store, r: nat, live: set<string>, free: set<string>)
    requires IsDict(s, Link(r))
    ensures IsDict(Copied(s), Link(r + |s|))
    ensures Apart(s, r, live, free) <==> Apart(Copied(s), r + |s|, live, free)
  {
    hide Read, Parts, Writable, Apart, Copied, Like;
    CopiedDict(s, r);
    forall k | k in s[r].fields ensures Like(s, s[r].fields[k], Copied(s), Copied(s)[r + |s|].fields[k], |s|) {
      DictHolds(s, r, k);
      CopyShows(s, s[r].fields[k]);
    }
    LikeApart(s, r, Copied(s), |s|, live, free);
  }

  // ----- the merge in place -----

  class ObjectHeap {
    var store: Store

    constructor (nodes: Store)
      ensures store == nodes
    {
      store := nodes;
    }

    /** `_merge_mapping`: whatever is shared, the heap becomes the merged one; without sharing it shows the merged value. */
    method MergeMapping(r: nat, updates: Json, order: Order)
      requires IsDict(store, Link(r)) && updates.Obj? && Ordered(updates, order)
      modifies this
      ensures store == MergeInto(old(store), r, updates, order)
      ensures Unshared(old(store), Link(r)) ==> Read(store, Link(r)) == Merge(Read(old(store), Link(r)), updates)
      decreases updates, 1
    {
      ghost var first := store;
      for i := 0 to |order.keys|
        invariant store == MergeKeys(first, r, updates, order, i)
      {
        var key := order.keys[i];
        assert key in Elements(order.keys);
        MergeValue(r, key, updates.fields[key], order.inner[key]);
      }
      if Unshared(first, Link(r)) {
        MergeShows(first, r, updates, order);
      }
    }

    method MergeValue(r: nat, key: string, update: Json, order: Order)
      requires IsDict(store, Link(r)) && Ordered(update, order)
      modifies this
      ensures store == MergeKey(old(store), r, key, update, order)
      decreases update, 3
    {
      var fields := store[r].fields;
      if key in fields && IsDict(store, fields[key]) && update.Obj? {
        MergeMapping(fields[key].ref, update, order);
      } else {
        var c := DeepCopy(update, order);
        store := Bind(store, r, key, c);
      }
    }

    /** `copy.deepcopy` of evidence: a mapping is copied into a new, empty one. */
    method DeepCopy(json: Json, order: Order) returns (c: Cell)
      requires Ordered(json, order)
      modifies this
      ensures (store, c) == Place(old(store), json, order)
      ensures Read(store, c) == json && forall x | 0 <= x < |old(store)| :: store[x] == old(store)[x]
      decreases json, 2
    {
      PlaceShows(store, json, order);
      if !json.Obj? {
        return Leaf(json);
      }
      c := Link(|store|);
      store := Alloc(store);
      MergeMapping(c.ref, json, order);
    }
  }
}
