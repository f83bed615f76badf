/**
 Atomic receipt writing (scripts/k8s/common.py) over a directory whose every system call may fail,
 and which may stop after any of them.
 */
module AtomicWrite {
  import opened Wrappers

  // ----- the directory -----

  datatype Entry = File(inode: nat) | Symlink | Directory

  /** What the kernel holds after a system call. `synced` inodes survive a power loss with their content. */
  datatype Snapshot = Snapshot(
    entries: map<string, Entry>, data: map<nat, string>, modes: map<nat, nat>, synced: set<nat>, next: nat)
  {
    ghost predicate Valid() {
      && (forall n :: n in entries && entries[n].File? ==> entries[n].inode in data)
      && (forall i :: i in data ==> i < next && i in modes)
      && (forall i :: i in synced ==> i in data)
    }

    function Read(name: string): Option<string> {
      if name in entries && entries[name].File? && entries[name].inode in data
      then Some(data[entries[name].inode]) else None
    }
  }

  const DEFAULT_MODE: nat := 420

  class ParentDirectory {
    var state: Snapshot
    /** The states after each system call so far, for the crashes that may follow. */
    var history: seq<Snapshot>
    /** How many system calls have failed without a reason in the directory itself. */
    ghost var failures: nat

    ghost predicate Valid()
      reads this`state, this`history
    {
      history != [] && history[|history| - 1] == state && Recorded(history)
    }

    constructor (initial: Snapshot)
      requires initial.Valid()
      ensures Valid() && state == initial && history == [initial] && failures == 0
    {
      state, history, failures := initial, [initial], 0;
      new;
      assert history[..0] == [];
    }

    method Record(s: Snapshot)
      requires Valid() && s.Valid() && state.data.Keys <= s.data.Keys
      modifies this`state, this`history
      ensures Valid() && state == s && history == old(history) + [s]
    {
      state, history := s, history + [s];
      assert history[..|history| - 1] == old(history);
    }

    method OpenExclusive(name: string) returns (ok: bool, inode: nat)
      requires Valid()
      modifies this
      ensures Valid() && history == old(history) + [state]
      ensures failures == old(failures) + if ok || name in old(state.entries) then 0 else 1
      ensures ok ==> name !in old(state.entries) && inode == old(state.next)
      ensures ok ==> state == Created(old(state), name)
      ensures !ok ==> state == old(state)
    {
      inode := state.next;
      ok := *;
      failures := failures + if ok || name in state.entries then 0 else 1;
      if name in state.entries {
        ok := false;
      }
      Record(if ok then Created(state, name) else state);
    }

    method Append(inode: nat, text: string) returns (ok: bool, part: string)
      requires Valid() && inode in state.data
      modifies this
      ensures Valid() && history == old(history) + [state]
      ensures state == old(state).(data := old(state.data)[inode := old(state.data)[inode] + part])
      ensures failures == old(failures) + if ok then 0 else 1
      ensures ok ==> part == text
    {
      ok := *;
      failures := failures + if ok then 0 else 1;
      part := text;
      if !ok {
        var cut: int := *;
        part := if 0 <= cut <= |text| then text[..cut] else "";
      }
      Record(state.(data := state.data[inode := state.data[inode] + part]));
    }

    method Sync(inode: nat) returns (ok: bool)
      requires Valid() && inode in state.data
      modifies this
      ensures Valid() && history == old(history) + [state]
      ensures state == if ok then old(state).(synced := old(state.synced) + {inode}) else old(state)
      ensures failures == old(failures) + if ok then 0 else 1
    {
      ok := *;
      failures := failures + if ok then 0 else 1;
      Record(if ok then state.(synced := state.synced + {inode}) else state);
    }

    method Chmod(inode: nat, mode: nat) returns (ok: bool)
      requires Valid() && inode in state.data
      modifies this
      ensures Valid() && history == old(history) + [state]
      ensures state == if ok then old(state).(modes := old(state.modes)[inode := mode]) else old(state)
      ensures failures == old(failures) + if ok then 0 else 1
    {
      ok := *;
      failures := failures + if ok then 0 else 1;
      Record(if ok then state.(modes := state.modes[inode := mode]) else state);
    }

    /** Moves a file over a name in one step; a directory in the way makes it fail. */
    method Rename(source: string, target: string) returns (ok: bool)
      requires Valid() && source in state.entries && state.entries[source].File? && source != target
      modifies this
      ensures Valid() && history == old(history) + [state]
      ensures ok ==> !IsDirectory(old(state), target)
      ensures state == if ok then Moved(old(state), source, target) else old(state)
      ensures failures == old(failures) + if ok || IsDirectory(old(state), target) then 0 else 1
    {
      ok := *;
      failures := failures + if ok || IsDirectory(state, target) then 0 else 1;
      if target in state.entries && state.entries[target].Directory? {
        ok := false;
      }
      Record(if ok then Moved(state, source, target) else state);
    }

    method Unlink(name: string) returns (ok: bool)
      requires Valid()
      modifies this
      ensures Valid() && history == old(history) + [state]
      ensures state == if ok then old(state).(entries := old(state.entries) - {name}) else old(state)
      ensures failures == old(failures) + if ok then 0 else 1
    {
      ok := *;
      failures := failures + if ok then 0 else 1;
      Record(if ok then state.(entries := state.entries - {name}) else state);
    }

    /**
     The machine stops after some system call since `start`. The directory, which nothing syncs, comes
     back as it was after that one or any earlier one since `start`; files that were not synced come back
     with any content.
     */
    method PowerLoss(start: nat)
      requires Valid() && start < |history|
      modifies this
      ensures Valid() && history == [state]
      ensures exists j, k :: start <= j <= k < |old(history)| && AfterLoss(old(history)[j], old(history)[k], state)
    {
      var j: nat, k: nat := *, *;
      if !(start <= j <= k < |history|) {
        j, k := start, start;
      }
      RecordedHolds(history, j, k);
      var lost: map<nat, string> := *;
      var stop := history[k];
      var after := Snapshot(
        history[j].entries,
        map i | i in stop.data :: if i in stop.synced then stop.data[i] else if i in lost then lost[i] else "",
        stop.modes, stop.synced, stop.next);
      assert AfterLoss(history[j], stop, after);
      state, history := after, [after];
      assert history[..0] == [];
    }

    // ----- writing a receipt -----

    /**
     The document is the list of text pieces the encoder yields; None is where it meets a value it
     cannot encode and raises an error that is not an OSError.
     */
    method WriteJsonAtomic(name: string, document: seq<Option<string>>, mode: nat, replace: bool, parentRefused: bool)
      returns (r: WriteResult)
      requires Valid()
      modifies this
      ensures Valid() && |history| >= |old(history)| && history[..|old(history)|] == old(history)
      ensures r == TargetRefused <==> RefusesTarget(old(state), name, replace)
      ensures r == ParentRefused <==> !RefusesTarget(old(state), name, replace) && parentRefused
      ensures r == TemporaryExists <==>
              !RefusesTarget(old(state), name, replace) && !parentRefused && Temporary(name) in old(state.entries)
      ensures r in {TargetRefused, ParentRefused, TemporaryExists} ==> history == old(history)
      ensures WrittenSafely(old(state), history, |old(history)| - 1, name, document, mode)
      ensures r == Published <==> !Untouched(old(state), state, name)
      ensures r == Published ==> state.Read(name) == Rendered(document) && Temporary(name) !in state.entries
      ensures r == Unencodable ==> Rendered(document) == None && Temporary(name) in state.entries
      ensures r == OsError(true) ==> state.entries == old(state.entries)
      ensures r == OsError(false) ==> state.entries - {Temporary(name)} == old(state.entries)
      ensures failures >= old(failures)
      ensures failures == old(failures) && r !in {TargetRefused, ParentRefused, TemporaryExists} ==>
                r == if Rendered(document).None? then Unencodable
                     else if name in old(state.entries) && old(state.entries)[name].Directory? then OsError(true)
                     else Published
    {
      hide Untouched, Complete, Rendered;
      StillUntouched(state, name);
      if name in state.entries && (state.entries[name].Symlink? || !replace) {
        return TargetRefused;
      }
      if parentRefused {
        return ParentRefused;
      }
      if Temporary(name) in state.entries {
        return TemporaryExists;
      }
      r := Publish(name, document, mode);
    }

    /** The guarded part: draft, flush, set the mode, rename; on an OSError remove the draft. */
    method Publish(name: string, document: seq<Option<string>>, mode: nat) returns (r: WriteResult)
      requires Valid() && Temporary(name) !in state.entries
      modifies this
      ensures Valid() && |history| >= |old(history)| && history[..|old(history)|] == old(history)
      ensures WrittenSafely(old(state), history, |old(history)| - 1, name, document, mode)
      ensures r in {Published, Unencodable, OsError(true), OsError(false)}
      ensures r == Published <==> !Untouched(old(state), state, name)
      ensures r == Published ==> state.Read(name) == Rendered(document) && Temporary(name) !in state.entries
      ensures r == Unencodable ==> Rendered(document) == None && Temporary(name) in state.entries
      ensures r == OsError(true) ==> state.entries == old(state.entries)
      ensures r == OsError(false) ==> state.entries - {Temporary(name)} == old(state.entries)
      ensures failures >= old(failures)
      ensures failures == old(failures) ==>
                r == if Rendered(document).None? then Unencodable else if IsDirectory(old(state), name) then OsError(true) else Published
    {
      hide IsDirectory;
      hide Untouched, Complete, Drafting, Bound, AllUntouched, WrittenSafely, OnlyAdds, Rendered, Recorded;
      hide Snapshot.Valid, Snapshot.Read, Created, Moved, Temporary;
      ghost var before, start := state, |history| - 1;
      RecordedHolds(history, start, start);
      StartsUntouched(before, history, name);
      var ended := Draft(name, document, mode, before, start);
      if ended.Some? {
        r := ended.value;
        if r == Published {
          SafelyPublished(before, history, start, name, document, mode);
        } else {
          SafelyUntouched(before, history, start, name, document, mode);
        }
        return;
      }
      CurrentUntouched(before, history, start, name);
      UnlinkedIsUntouched(before, state, name);
      var cleaned := Unlink(Temporary(name));
      KeepsUntouched(before, history[..|history| - 1], start, name, state);
      SafelyUntouched(before, history, start, name, document, mode);
      return OsError(cleaned);
    }

    /** Everything the OSError handler guards; None is an OSError. */
    method Draft(name: string, document: seq<Option<string>>, mode: nat, ghost before: Snapshot, ghost start: nat)
      returns (r: Option<WriteResult>)
      requires Valid() && before.Valid() && before == state && Temporary(name) !in state.entries
      requires start == |history| - 1 && AllUntouched(before, history, start, name)
      modifies this
      ensures Valid() && |history| > |old(history)| && history[..|old(history)|] == old(history)
      ensures r in {None, Some(Published), Some(Unencodable)}
      ensures r == Some(Published) ==> AllUntouched(before, history[..|history| - 1], start, name)
      ensures r == Some(Published) ==> Complete(before, state, name, document, mode) && !Untouched(before, state, name)
      ensures r == Some(Published) ==> state.Read(name) == Rendered(document) && Temporary(name) !in state.entries
      ensures r != Some(Published) ==> AllUntouched(before, history, start, name)
      ensures r == Some(Unencodable) ==> Rendered(document) == None && Temporary(name) in state.entries
      ensures failures >= old(failures)
      ensures failures == old(failures) ==>
                r == if Rendered(document).None? then Some(Unencodable) else if IsDirectory(before, name) then None else Some(Published)
    {
      hide IsDirectory;
      hide Untouched, Complete, Drafting, Bound, AllUntouched, WrittenSafely, OnlyAdds, Rendered, Recorded;
      hide Snapshot.Valid, Snapshot.Read, Created, Moved, Temporary;
      OpenedIsDrafting(before, name);
      var ok, inode := OpenExclusive(Temporary(name));
      KeepsUntouched(before, history[..|history| - 1], start, name, state);
      if !ok {
        return None;
      }
      var written, encodable := WriteBody(inode, name, document, before);
      KeepsUntouchedAll(before, history, start, start + 2, name);
      BoundHolds(before, state, name, inode);
      if !encodable {
        return Some(Unencodable);
      }
      if !written {
        return None;
      }
      var published := Finish(name, inode, document, mode, before, start);
      r := if published then Some(Published) else None;
    }

    method Finish(name: string, inode: nat, document: seq<Option<string>>, mode: nat, ghost before: Snapshot, ghost start: nat)
      returns (published: bool)
      requires Valid() && before.Valid() && Bound(before, state, name, inode) && inode in state.data
      requires Rendered(document) == Some(state.data[inode])
      requires start < |history| && AllUntouched(before, history, start, name)
      modifies this
      ensures Valid() && |history| > |old(history)| && history[..|old(history)|] == old(history)
      ensures published ==> AllUntouched(before, history[..|history| - 1], start, name)
      ensures published ==> Complete(before, state, name, document, mode) && !Untouched(before, state, name)
      ensures published ==> state.Read(name) == Rendered(document) && Temporary(name) !in state.entries
      ensures !published ==> AllUntouched(before, history, start, name)
      ensures failures >= old(failures)
      ensures failures == old(failures) ==> (published <==> !IsDirectory(before, name))
    {
      hide IsDirectory;
      hide Untouched, Complete, Drafting, Bound, AllUntouched, WrittenSafely, OnlyAdds, Rendered, Recorded;
      hide Snapshot.Valid, Snapshot.Read, Moved, Temporary;
      SyncIsBound(before, state, name, inode);
      BoundHolds(before, state, name, inode);
      var ok := Sync(inode);
      KeepsUntouched(before, history[..|history| - 1], start, name, state);
      if !ok {
        return false;
      }
      ChmodIsBound(before, state, name, inode, mode);
      ok := Chmod(inode, mode);
      KeepsUntouched(before, history[..|history| - 1], start, name, state);
      if !ok {
        return false;
      }
      BoundHolds(before, state, name, inode);
      MovedIsComplete(before, state, name, inode, document, mode);
      SameDirectory(before, state, name);
      published := Rename(Temporary(name), name);
      if published {
        assert history[..|history| - 1][..|history| - 1] == history[..|history| - 1];
      } else {
        KeepsUntouched(before, history[..|history| - 1], start, name, state);
      }
    }

    method WriteBody(inode: nat, name: string, document: seq<Option<string>>, ghost before: Snapshot)
      returns (written: bool, encodable: bool)
      requires Valid() && Drafting(before, state, name, inode) && inode in state.data && state.data[inode] == ""
      modifies this
      ensures Valid() && Bound(before, state, name, inode) && inode in state.data
      ensures |history| >= |old(history)| && history[..|old(history)|] == old(history)
      ensures AllUntouched(before, history, |old(history)|, name)
      ensures written ==> encodable && Rendered(document) == Some(state.data[inode])
      ensures !encodable ==> Rendered(document) == None
      ensures failures >= old(failures)
      ensures failures == old(failures) ==> (written <==> encodable)
    {
      hide Untouched, Drafting, Bound, AllUntouched, OnlyAdds, Recorded, Joined, Snapshot.Valid, Temporary;
      var ok, part;
      AllUntouchedNone(before, history, name);
      DraftIsBound(before, state, name, inode);
      for i := 0 to |document|
        invariant Valid() && Drafting(before, state, name, inode)
        invariant inode in state.data
        invariant |history| >= |old(history)| && history[..|old(history)|] == old(history)
        invariant AllUntouched(before, history, |old(history)|, name)
        invariant Joined(document[..i]) == Some(state.data[inode])
        invariant failures == old(failures)
      {
        JoinedStep(document, i);
        if document[i].None? {
          JoinedFails(document, i);
          DraftIsBound(before, state, name, inode);
          return false, false;
        }
        ghost var prior := state;
        ok, part := Append(inode, document[i].value);
        AppendKeeps(before, prior, name, inode, state.data[inode]);
        KeepsUntouched(before, history[..|history| - 1], |old(history)|, name, state);
        if !ok {
          DraftIsBound(before, state, name, inode);
          return false, true;
        }
      }
      assert document[..|document|] == document;
      ghost var prior := state;
      ok, part := Append(inode, "\n");
      AppendKeeps(before, prior, name, inode, state.data[inode]);
      KeepsUntouched(before, history[..|history| - 1], |old(history)|, name, state);
      DraftIsBound(before, state, name, inode);
      return ok, true;
    }
  }

  datatype WriteResult =
    | TargetRefused
    | ParentRefused
    | TemporaryExists
    | OsError(cleaned: bool)
    | Unencodable
    | Published

  // ----- vocabulary -----

  predicate IsDirectory(s: Snapshot, name: string) {
    name in s.entries && s.entries[name].Directory?
  }

  function Created(s: Snapshot, name: string): Snapshot {
    Snapshot(s.entries[name := File(s.next)], s.data[s.next := ""], s.modes[s.next := DEFAULT_MODE],
             s.synced, s.next + 1)
  }

  function Moved(s: Snapshot, source: string, target: string): Snapshot
    requires source in s.entries
  {
    s.(entries := (s.entries - {source})[target := s.entries[source]])
  }

  function Temporary(name: string): string {
    "." + name + ".tmp"
  }

  function Joined(document: seq<Option<string>>): Option<string> {
    if document == [] then Some("")
    else
      var earlier, last := Joined(document[..|document| - 1]), document[|document| - 1];
      if earlier.Some? && last.Some? then Some(earlier.value + last.value) else None
  }

  /** The complete file, if every piece can be encoded. */
  function Rendered(document: seq<Option<string>>): Option<string> {
    var body := Joined(document);
    if body.Some? then Some(body.value + "\n") else None
  }

  lemma JoinedStep(document: seq<Option<string>>, i: nat)
    requires i < |document|
    ensures Joined(document[..i + 1]) ==
            (if Joined(document[..i]).Some? && document[i].Some?
             then Some(Joined(document[..i]).value + document[i].value) else None)
  {
    assert document[..i + 1][..i] == document[..i];
  }

  lemma {:induction false} JoinedFails(document: seq<Option<string>>, i: nat)
    requires i < |document| && document[i].None?
    ensures Joined(document) == None
  {
    if i < |document| - 1 {
      JoinedFails(document[..|document| - 1], i);
    }
  }

  predicate RefusesTarget(s: Snapshot, name: string, replace: bool) {
    name in s.entries && (s.entries[name].Symlink? || !replace)
  }

  /** No file that existed before has changed, and only the two names may refer to something else. */
  ghost predicate OnlyAdds(before: Snapshot, s: Snapshot, name: string) {
    && s.Valid()
    && before.data.Keys <= s.data.Keys && before.synced <= s.synced
    && (forall i :: i in before.data ==> s.data[i] == before.data[i] && i in s.modes && i in before.modes && s.modes[i] == before.modes[i])
    && s.entries - {name, Temporary(name)} == before.entries - {name, Temporary(name)}
  }

  predicate SameEntry(before: Snapshot, s: Snapshot, n: string) {
    (n in before.entries <==> n in s.entries) && (n in before.entries ==> s.entries[n] == before.entries[n])
  }

  /** The target still is what it was. */
  ghost predicate Untouched(before: Snapshot, s: Snapshot, name: string) {
    OnlyAdds(before, s, name) && SameEntry(before, s, name)
  }

  /** The target is a new file holding the complete document, durably, with the requested mode. */
  ghost predicate Complete(before: Snapshot, s: Snapshot, name: string, document: seq<Option<string>>, mode: nat) {
    && OnlyAdds(before, s, name)
    && name in s.entries && s.entries[name].File?
    && var i := s.entries[name].inode;
       i !in before.data && i in s.synced && i in s.modes && s.modes[i] == mode && s.Read(name) == Rendered(document)
  }

  /** The temporary name is bound to a new file and nothing else has changed. */
  ghost predicate Bound(before: Snapshot, s: Snapshot, name: string, inode: nat) {
    && Untouched(before, s, name)
    && Temporary(name) in s.entries && s.entries[Temporary(name)] == File(inode)
    && Temporary(name) !in before.entries
    && inode == before.next && inode !in before.data && s.next == inode + 1 && inode in s.data
  }

  ghost predicate Drafting(before: Snapshot, s: Snapshot, name: string, inode: nat) {
    Bound(before, s, name, inode) && inode !in s.synced
  }

  ghost predicate AllUntouched(before: Snapshot, history: seq<Snapshot>, start: nat, name: string) {
    forall k :: start <= k < |history| ==> Untouched(before, history[k], name)
  }

  /** Every state of one call leaves the target alone, but for a last one that may have it complete. */
  ghost predicate WrittenSafely(
    before: Snapshot, history: seq<Snapshot>, start: nat, name: string, document: seq<Option<string>>, mode: nat)
  {
    && start < |history| && history[start] == before
    && (forall k :: start <= k < |history| - 1 ==> Untouched(before, history[k], name))
    && (Untouched(before, history[|history| - 1], name) || Complete(before, history[|history| - 1], name, document, mode))
  }

  // ----- the steps of one call -----

  lemma StillUntouched(s: Snapshot, name: string)
    requires s.Valid()
    ensures Untouched(s, s, name)
  {
  }

  lemma StartsUntouched(before: Snapshot, history: seq<Snapshot>, name: string)
    requires before.Valid() && history != [] && history[|history| - 1] == before
    ensures AllUntouched(before, history, |history| - 1, name)
  {
  }

  lemma OpenedIsDrafting(before: Snapshot, name: string)
    requires before.Valid() && Temporary(name) !in before.entries
    ensures Untouched(before, before, name) && Temporary(name) != name
    ensures var s := Created(before, Temporary(name));
            Drafting(before, s, name, before.next) && Untouched(before, s, name) && before.next in s.data && s.data[before.next] == ""
  {
    assert |Temporary(name)| == |name| + 5;
  }

  lemma KeepsUntouched(before: Snapshot, earlier: seq<Snapshot>, start: nat, name: string, s: Snapshot)
    requires AllUntouched(before, earlier, start, name) && Untouched(before, s, name)
    ensures AllUntouched(before, earlier + [s], start, name)
  {
  }

  lemma CurrentUntouched(before: Snapshot, history: seq<Snapshot>, start: nat, name: string)
    requires start < |history| && AllUntouched(before, history, start, name)
    ensures Untouched(before, history[|history| - 1], name)
  {
  }

  lemma KeepsUntouchedAll(before: Snapshot, history: seq<Snapshot>, start: nat, middle: nat, name: string)
    requires start <= middle <= |history|
    requires AllUntouched(before, history[..middle], start, name) && AllUntouched(before, history, middle, name)
    ensures AllUntouched(before, history, start, name)
  {
    forall k | start <= k < |history| ensures Untouched(before, history[k], name) {
      if k < middle {
        assert history[..middle][k] == history[k];
      }
    }
  }

  lemma AllUntouchedNone(before: Snapshot, history: seq<Snapshot>, name: string)
    ensures AllUntouched(before, history, |history|, name)
    ensures Joined([]) == Some("")
  {
  }

  lemma AppendKeeps(before: Snapshot, s: Snapshot, name: string, inode: nat, text: string)
    requires Drafting(before, s, name, inode)
    ensures var t := s.(data := s.data[inode := text]); Drafting(before, t, name, inode) && Untouched(before, t, name)
  {
  }

  lemma DraftIsBound(before: Snapshot, s: Snapshot, name: string, inode: nat)
    requires Drafting(before, s, name, inode)
    ensures Bound(before, s, name, inode) && inode in s.data
  {
  }

  lemma SameDirectory(before: Snapshot, s: Snapshot, name: string)
    requires Untouched(before, s, name)
    ensures IsDirectory(s, name) <==> IsDirectory(before, name)
    ensures IsDirectory(before, name) <==> name in before.entries && before.entries[name].Directory?
  {
  }

  lemma BoundHolds(before: Snapshot, s: Snapshot, name: string, inode: nat)
    requires Bound(before, s, name, inode)
    ensures Untouched(before, s, name) && Temporary(name) in s.entries && s.entries[Temporary(name)].File?
    ensures inode in s.data && Temporary(name) != name
  {
    assert |Temporary(name)| == |name| + 5;
  }

  lemma SyncIsBound(before: Snapshot, s: Snapshot, name: string, inode: nat)
    requires Bound(before, s, name, inode)
    ensures Bound(before, s.(synced := s.synced + {inode}), name, inode)
    ensures Untouched(before, s.(synced := s.synced + {inode}), name)
  {
  }

  lemma ChmodIsBound(before: Snapshot, s: Snapshot, name: string, inode: nat, mode: nat)
    requires Bound(before, s, name, inode)
    ensures Bound(before, s.(modes := s.modes[inode := mode]), name, inode)
    ensures Untouched(before, s.(modes := s.modes[inode := mode]), name)
  {
  }

  lemma MovedIsComplete(before: Snapshot, s: Snapshot, name: string, inode: nat, document: seq<Option<string>>, mode: nat)
    requires before.Valid() && Bound(before, s, name, inode) && inode in s.synced && Rendered(document) == Some(s.data[inode])
    requires inode in s.modes && s.modes[inode] == mode
    ensures var after := Moved(s, Temporary(name), name);
            && Complete(before, after, name, document, mode) && !Untouched(before, after, name)
            && after.Read(name) == Rendered(document) && Temporary(name) !in after.entries && after.Valid()
  {
    var after := Moved(s, Temporary(name), name);
    assert |Temporary(name)| == |name| + 5;
    assert after.entries - {name, Temporary(name)} == s.entries - {name, Temporary(name)};
    assert name in before.entries && before.entries[name].File? ==> before.entries[name].inode in before.data;
  }

  lemma UnlinkedIsUntouched(before: Snapshot, s: Snapshot, name: string)
    requires Untouched(before, s, name) && Temporary(name) !in before.entries
    ensures s.entries - {Temporary(name)} == before.entries
    ensures Untouched(before, s.(entries := s.entries - {Temporary(name)}), name)
  {
    forall n ensures n in s.entries - {Temporary(name)} <==> n in before.entries {
      assert n in s.entries - {name, Temporary(name)} <==> n in before.entries - {name, Temporary(name)};
    }
    forall n | n in before.entries ensures s.entries[n] == before.entries[n] {
      if n != name {
        assert (s.entries - {name, Temporary(name)})[n] == (before.entries - {name, Temporary(name)})[n];
      }
    }
  }

  lemma SafelyUntouched(before: Snapshot, history: seq<Snapshot>, start: nat, name: string, document: seq<Option<string>>, mode: nat)
    requires start < |history| && history[start] == before && AllUntouched(before, history, start, name)
    ensures WrittenSafely(before, history, start, name, document, mode)
    ensures Untouched(before, history[|history| - 1], name)
  {
  }

  lemma SafelyPublished(before: Snapshot, history: seq<Snapshot>, start: nat, name: string, document: seq<Option<string>>, mode: nat)
    requires start < |history| - 1 && history[start] == before && AllUntouched(before, history[..|history| - 1], start, name)
    requires Complete(before, history[|history| - 1], name, document, mode)
    ensures WrittenSafely(before, history, start, name, document, mode)
  {
    forall k | start <= k < |history| - 1 ensures Untouched(before, history[k], name) {
      assert history[..|history| - 1][k] == history[k];
    }
  }

  /** Every state is well formed and no state forgets a file of an earlier one. */
  ghost predicate Recorded(history: seq<Snapshot>) {
    history == [] ||
    (&& Recorded(history[..|history| - 1]) && history[|history| - 1].Valid()
     && (|history| > 1 ==> history[|history| - 2].data.Keys <= history[|history| - 1].data.Keys))
  }

  lemma {:induction false} RecordedHolds(history: seq<Snapshot>, j: nat, k: nat)
    requires Recorded(history) && j <= k < |history|
    ensures history[j].Valid() && history[k].Valid() && history[j].data.Keys <= history[k].data.Keys
  {
    if k < |history| - 1 {
      RecordedHolds(history[..|history| - 1], j, k);
    } else if j < k {
      RecordedHolds(history[..|history| - 1], j, k - 1);
    }
  }

  /** What a power loss makes of entries last stored as in `stored` and files as in `stop`. */
  ghost predicate AfterLoss(stored: Snapshot, stop: Snapshot, s: Snapshot) {
    && s.Valid() && s.entries == stored.entries && s.synced == stop.synced
    && forall i :: i in stop.synced && i in stop.data ==> i in s.data && s.data[i] == stop.data[i]
  }

  // ----- crashes and whole campaigns -----

  /** The target's present content would survive a power loss. */
  ghost predicate Durable(s: Snapshot, name: string) {
    name in s.entries && s.entries[name].File? ==> s.entries[name].inode in s.synced
  }

  /**
   Stop one call after any of its system calls and lose power: what comes back under the target's
   name is the file that was there before, or the complete new document, never part of one. Here the
   directory comes back no older than the start of the call; `Campaign` lifts that.
   */
  lemma CrashIsAllOrNothing(
    before: Snapshot, history: seq<Snapshot>, start: nat, j: nat, k: nat, after: Snapshot,
    name: string, document: seq<Option<string>>, mode: nat)
    requires Recorded(history) && WrittenSafely(before, history, start, name, document, mode)
    requires start <= j <= k < |history| && AfterLoss(history[j], history[k], after) && Durable(before, name)
    ensures after.Read(name) == before.Read(name) || (Rendered(document).Some? && after.Read(name) == Rendered(document))
    ensures Durable(after, name)
  {
    hide Rendered, Recorded;
    RecordedHolds(history, j, k);
    if Untouched(before, history[j], name) {
      assert Untouched(before, history[k], name) || Complete(before, history[k], name, document, mode);
    } else {
      assert j == k == |history| - 1;
      assert Complete(before, history[j], name, document, mode);
    }
  }

  datatype Write = Write(document: seq<Option<string>>, mode: nat, replace: bool, parentRefused: bool)

  ghost predicate OneOf(content: Option<string>, initial: Option<string>, writes: seq<Write>) {
    content == initial || exists w :: w in writes && Rendered(w.document).Some? && content == Rendered(w.document)
  }

  lemma OneOfMore(content: Option<string>, initial: Option<string>, writes: seq<Write>, w: Write)
    requires OneOf(content, initial, writes) || (Rendered(w.document).Some? && content == Rendered(w.document))
    ensures OneOf(content, initial, writes + [w])
  {
    assert w in writes + [w];
    if content != initial && !(Rendered(w.document).Some? && content == Rendered(w.document)) {
      var v :| v in writes && Rendered(v.document).Some? && content == Rendered(v.document);
      assert v in writes + [w];
    }
  }

  /** The file that had the target's name is still there with its content, and still durable. */
  ghost predicate TargetKept(s: Snapshot, t: Snapshot, name: string) {
    name in s.entries && s.entries[name].File? ==>
      var i := s.entries[name].inode;
      && (i in s.data ==> i in t.data && t.data[i] == s.data[i])
      && (i in s.synced ==> i in t.synced)
  }

  /** In every state the target is acceptable and durable, and no later state takes its content away. */
  ghost predicate SafeSince(history: seq<Snapshot>, start: nat, name: string, initial: Option<string>, writes: seq<Write>) {
    && (forall j :: start <= j < |history| ==> Durable(history[j], name) && OneOf(history[j].Read(name), initial, writes))
    && (forall j, k :: start <= j <= k < |history| ==> TargetKept(history[j], history[k], name))
  }

  lemma CallKeepsTarget(before: Snapshot, history: seq<Snapshot>, called: nat, name: string, w: Write, j: nat)
    requires WrittenSafely(before, history, called, name, w.document, w.mode) && Durable(before, name) && before.Valid()
    requires called <= j < |history|
    ensures Durable(history[j], name) && TargetKept(before, history[j], name)
    ensures history[j].Read(name) == before.Read(name) || (Rendered(w.document).Some? && history[j].Read(name) == Rendered(w.document))
    ensures forall k :: j <= k < |history| ==> TargetKept(history[j], history[k], name)
  {
    hide Rendered;
    forall k | j <= k < |history| ensures TargetKept(history[j], history[k], name) {
      if Untouched(before, history[j], name) {
        assert OnlyAdds(before, history[k], name);
      } else {
        assert j == k == |history| - 1;
      }
    }
  }

  lemma KeptOn(a: Snapshot, b: Snapshot, c: Snapshot, name: string)
    requires TargetKept(a, b, name) && OnlyAdds(b, c, name)
    ensures TargetKept(a, c, name)
  {
  }

  lemma WrittenAdds(before: Snapshot, history: seq<Snapshot>, called: nat, name: string, w: Write, k: nat)
    requires WrittenSafely(before, history, called, name, w.document, w.mode) && called <= k < |history|
    ensures OnlyAdds(before, history[k], name)
  {
  }

  lemma CallKeepsSafe(history: seq<Snapshot>, start: nat, called: nat, name: string, initial: Option<string>, writes: seq<Write>, w: Write)
    requires start <= called < |history| && SafeSince(history[..called + 1], start, name, initial, writes)
    requires history[called].Valid() && WrittenSafely(history[called], history, called, name, w.document, w.mode)
    ensures SafeSince(history, start, name, initial, writes + [w])
  {
    hide WrittenSafely, Durable, OneOf, Rendered, TargetKept, OnlyAdds, Snapshot.Read, Snapshot.Valid;
    var earlier, before := history[..called + 1], history[called];
    assert before == earlier[called];
    forall j | start <= j < |history| ensures Durable(history[j], name) && OneOf(history[j].Read(name), initial, writes + [w]) {
      if j <= called {
        assert history[j] == earlier[j];
      } else {
        CallKeepsTarget(before, history, called, name, w, j);
      }
      OneOfMore(history[j].Read(name), initial, writes, w);
    }
    forall j, k | start <= j <= k < |history| ensures TargetKept(history[j], history[k], name) {
      if j <= called {
        assert history[j] == earlier[j];
        if k <= called {
          assert history[k] == earlier[k];
        } else {
          WrittenAdds(before, history, called, name, w, k);
          KeptOn(history[j], before, history[k], name);
        }
      } else {
        CallKeepsTarget(before, history, called, name, w, j);
      }
    }
  }

  /** A power loss that brings back any of these states, and stops at any later one, leaves an acceptable target. */
  lemma LossKeepsSafe(history: seq<Snapshot>, start: nat, j: nat, k: nat, after: Snapshot, name: string, initial: Option<string>, writes: seq<Write>)
    requires SafeSince(history, start, name, initial, writes) && start <= j <= k < |history|
    requires history[j].Valid() && AfterLoss(history[j], history[k], after)
    ensures after.Read(name) == history[j].Read(name) && SafeSince([after], 0, name, initial, writes)
  {
    hide OneOf;
    assert TargetKept(history[j], history[k], name) && Durable(history[j], name);
  }

  lemma UnlinkKeepsSafe(history: seq<Snapshot>, start: nat, name: string, initial: Option<string>, writes: seq<Write>, next: Snapshot)
    requires start < |history| && SafeSince(history, start, name, initial, writes)
    requires var s := history[|history| - 1]; next == s.(entries := s.entries - {Temporary(name)}) || next == s
    ensures SafeSince(history + [next], start, name, initial, writes)
  {
    hide OneOf;
    var longer, last := history + [next], history[|history| - 1];
    UnlinkKeepsTarget(last, name);
    forall j, k | start <= j <= k < |longer| ensures TargetKept(longer[j], longer[k], name) {
      assert TargetKept(history[if j < |history| then j else |history| - 1], last, name);
    }
  }

  /**
   One writer, any number of calls, each possibly followed by a power loss and by someone removing the
   draft: a reader always finds the first content or one complete document. The directory itself is never
   synced, so a power loss may take it back to any state since the campaign began or the last power loss.
   */
  method Campaign(directory: ParentDirectory, name: string, writes: seq<Write>)
    requires directory.Valid() && Durable(directory.state, name)
    modifies directory
    ensures directory.Valid() && Durable(directory.state, name)
    ensures OneOf(directory.state.Read(name), old(directory.state.Read(name)), writes)
  {
    hide WrittenSafely, Durable, OneOf, Rendered, Recorded, AfterLoss, RefusesTarget, Snapshot.Read, Snapshot.Valid, Untouched, SafeSince;
    ghost var initial := directory.state.Read(name);
    var start: nat := |directory.history| - 1;
    SafeAtFirst(directory.history, initial, name, writes);
    for i := 0 to |writes|
      invariant directory.Valid() && start < |directory.history|
      invariant SafeSince(directory.history, start, name, initial, writes[..i])
    {
      var w := writes[i];
      var called := |directory.history| - 1;
      RecordedHolds(directory.history, called, called);
      assert directory.history[..called + 1] == directory.history;
      var _ := directory.WriteJsonAtomic(name, w.document, w.mode, w.replace, w.parentRefused);
      CallKeepsSafe(directory.history, start, called, name, initial, writes[..i], w);
      assert writes[..i + 1] == writes[..i] + [w];
      var stopped: bool := *;
      if stopped {
        ghost var history, earliest := directory.history, start;
        directory.PowerLoss(start);
        ghost var j, k :| earliest <= j <= k < |history| && AfterLoss(history[j], history[k], directory.state);
        RecordedHolds(history, j, k);
        LossKeepsSafe(history, earliest, j, k, directory.state, name, initial, writes[..i + 1]);
        start := 0;
      }
      var tidied: bool := *;
      if tidied {
        ghost var history := directory.history;
        var _ := directory.Unlink(Temporary(name));
        UnlinkKeepsSafe(history, start, name, initial, writes[..i + 1], directory.state);
      }
    }
    assert writes[..|writes|] == writes;
    SafeNow(directory.history, start, name, initial, writes);
  }

  lemma SafeAtFirst(history: seq<Snapshot>, initial: Option<string>, name: string, writes: seq<Write>)
    requires history != [] && Durable(history[|history| - 1], name) && initial == history[|history| - 1].Read(name)
    ensures SafeSince(history, |history| - 1, name, initial, writes[..0])
  {
    FirstOneOf(initial, writes);
  }

  lemma SafeNow(history: seq<Snapshot>, start: nat, name: string, initial: Option<string>, writes: seq<Write>)
    requires start < |history| && SafeSince(history, start, name, initial, writes)
    ensures Durable(history[|history| - 1], name) && OneOf(history[|history| - 1].Read(name), initial, writes)
  {
  }

  lemma FirstOneOf(initial: Option<string>, writes: seq<Write>)
    ensures OneOf(initial, initial, writes[..0])
  {
  }

  lemma UnlinkKeepsTarget(s: Snapshot, name: string)
    ensures var t := s.(entries := s.entries - {Temporary(name)});
            t.Read(name) == s.Read(name) && (Durable(s, name) ==> Durable(t, name))
  {
    assert |Temporary(name)| == |name| + 5;
  }

  /** Once a draft is left behind, every later call refuses and nothing changes until someone removes it. */
  method LeftoverBlocks(directory: ParentDirectory, name: string, writes: seq<Write>) returns (results: seq<WriteResult>)
    requires directory.Valid() && Temporary(name) in directory.state.entries
    modifies directory
    ensures directory.Valid() && directory.state == old(directory.state)
    ensures |results| == |writes| && forall r :: r in results ==> r in {TargetRefused, ParentRefused, TemporaryExists}
  {
    hide WrittenSafely, RefusesTarget, Rendered, Untouched;
    results := [];
    for i := 0 to |writes|
      invariant directory.Valid() && directory.state == old(directory.state)
      invariant |results| == i && forall r :: r in results ==> r in {TargetRefused, ParentRefused, TemporaryExists}
    {
      var w := writes[i];
      var r := directory.WriteJsonAtomic(name, w.document, w.mode, w.replace, w.parentRefused);
      results := results + [r];
    }
  }
}
