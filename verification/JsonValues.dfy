/** The values of a version lock and the merge of evidence into them (scripts/k8s/lock_lifecycle.py). */
module JsonValues {
  import opened Wrappers

  datatype Json = Null | Flag(flag: bool) | Number(number: int) | Text(text: string) | Items(items: seq<Json>)
                | Obj(fields: map<string, Json>)

  /** Python's `mapping.get(key)`: null when absent or when there is no mapping. */
  function Field(json: Json, key: string): Json {
    if json.Obj? && key in json.fields then json.fields[key] else Null
  }

  function With(target: Json, key: string, v: Json): Json
    requires target.Obj?
  {
    Obj(target.fields[key := v])
  }

  /** The merge as a function: evidence wins, except that two mappings are merged. */
  function Merge(target: Json, updates: Json): Json
    decreases updates
  {
    if !(target.Obj? && updates.Obj?) then updates
    else Obj(map k | k in target.fields.Keys + updates.fields.Keys ::
      if k !in updates.fields then target.fields[k]
      else if k !in target.fields then updates.fields[k]
      else Merge(target.fields[k], updates.fields[k]))
  }

  ghost function MergedAt(target: Json, key: string, update: Json): Json
    requires target.Obj?
  {
    if key in target.fields then Merge(target.fields[key], update) else update
  }

  ghost function MergedOn(target: Json, updates: Json, keys: set<string>): Json
    requires target.Obj? && updates.Obj? && keys <= updates.fields.Keys
  {
    Obj(map k | k in target.fields.Keys + keys ::
      if k in keys then MergedAt(target, k, updates.fields[k]) else target.fields[k])
  }

  lemma MergedNone(target: Json, updates: Json)
    requires target.Obj? && updates.Obj?
    ensures updates.fields.Keys - updates.fields.Keys == {}
    ensures MergedOn(target, updates, {}) == target
  {
    assert MergedOn(target, updates, {}).fields == target.fields;
  }

  lemma MergedStep(target: Json, updates: Json, keys: set<string>, key: string)
    requires target.Obj? && updates.Obj? && keys <= updates.fields.Keys && key in updates.fields && key !in keys
    ensures With(MergedOn(target, updates, keys), key, MergedAt(MergedOn(target, updates, keys), key, updates.fields[key]))
            == MergedOn(target, updates, keys + {key})
  {
    var next := MergedOn(target, updates, keys).fields[key := MergedAt(MergedOn(target, updates, keys), key, updates.fields[key])];
    assert next == MergedOn(target, updates, keys + {key}).fields;
  }

  lemma MergedAll(target: Json, updates: Json)
    requires target.Obj? && updates.Obj?
    ensures MergedOn(target, updates, updates.fields.Keys) == Merge(target, updates)
  {
    assert MergedOn(target, updates, updates.fields.Keys).fields == Merge(target, updates).fields;
  }

  // ----- what the merge means, path by path -----

  function Get(json: Json, path: seq<string>): Option<Json>
    decreases |path|
  {
    if path == [] then Some(json)
    else if json.Obj? && path[0] in json.fields then Get(json.fields[path[0]], path[1..])
    else None
  }

  /** The evidence has no value at the path because some mapping lacks the next key. */
  predicate Silent(updates: Json, path: seq<string>)
    decreases |path|
  {
    path != [] && updates.Obj? && (path[0] in updates.fields ==> Silent(updates.fields[path[0]], path[1..]))
  }

  /** The evidence has something that is not a mapping above the path. */
  predicate Covered(updates: Json, path: seq<string>)
    decreases |path|
  {
    path != [] && (updates.Obj? ==> path[0] in updates.fields && Covered(updates.fields[path[0]], path[1..]))
  }

  /** What the merge does to one value the evidence gives for it. */
  function Overlaid(target: Option<Json>, update: Json): Json {
    if target.Some? then Merge(target.value, update) else update
  }

  /**
   The value at every path after a merge: kept where the evidence is silent, gone below a value the
   evidence put there, and otherwise the evidence's own value, mappings being merged.
   */
  lemma {:induction false} MergeAtPath(target: Json, updates: Json, path: seq<string>)
    ensures Silent(updates, path) ==> Get(updates, path) == None && !Covered(updates, path)
                                      && Get(Merge(target, updates), path) == Get(target, path)
    ensures Covered(updates, path) ==> Get(updates, path) == None && Get(Merge(target, updates), path) == None
    ensures Get(updates, path) == None ==> Silent(updates, path) || Covered(updates, path)
    ensures Get(updates, path).Some? ==>
              Get(Merge(target, updates), path) == Some(Overlaid(Get(target, path), Get(updates, path).value))
    decreases |path|
  {
    if path != [] && updates.Obj? && path[0] in updates.fields {
      var inner := if target.Obj? && path[0] in target.fields then target.fields[path[0]] else updates.fields[path[0]];
      MergeAtPath(inner, updates.fields[path[0]], path[1..]);
      MergeSelf(updates.fields[path[0]]);
    }
  }

  lemma {:induction false} MergeSelf(json: Json)
    ensures Merge(json, json) == json
    decreases json
  {
    if json.Obj? {
      forall k | k in json.fields ensures Merge(json.fields[k], json.fields[k]) == json.fields[k] {
        MergeSelf(json.fields[k]);
      }
      assert Merge(json, json).fields == json.fields;
    }
  }

  /** Merging the same evidence again changes nothing. */
  lemma {:induction false} MergeAgain(target: Json, updates: Json)
    ensures Merge(Merge(target, updates), updates) == Merge(target, updates)
    decreases updates
  {
    if target.Obj? && updates.Obj? {
      var once := Merge(target, updates);
      forall k | k in updates.fields ensures Merge(once.fields[k], updates.fields[k]) == once.fields[k] {
        if k in target.fields {
          MergeAgain(target.fields[k], updates.fields[k]);
        } else {
          MergeSelf(updates.fields[k]);
        }
      }
      assert Merge(once, updates).fields == once.fields;
    } else {
      MergeSelf(updates);
    }
  }

  lemma MergeIntoEmpty(updates: Json)
    requires updates.Obj?
    ensures Merge(Obj(map[]), updates) == updates
  {
    assert Merge(Obj(map[]), updates).fields == updates.fields;
  }

  lemma MergeNothing(target: Json)
    requires target.Obj?
    ensures Merge(target, Obj(map[])) == target
  {
    assert Merge(target, Obj(map[])).fields == target.fields;
  }
}
