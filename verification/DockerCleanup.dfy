/**
 The scoped cleanup of one streaming-demo run: inspect first, remove what is verified, look again
 (scripts/experiments/module4c_streaming_demo.py).
 */
module DockerCleanup {
  import opened Wrappers
  import opened Collections
  import opened DockerDaemon
  import opened Ownership

  // ----- which mounts may go with their container -----

  datatype AnonymousMount = AnonymousMount(name: string, destination: string)

  predicate AnonymousName(name: string) {
    |name| == 64 && forall i :: 0 <= i < |name| ==> HexDigit(name[i])
  }

  /** `str.split(":")`. */
  function SplitColon(s: string): (parts: seq<string>)
    ensures parts != []
  {
    if s == "" then [""]
    else
      var rest := SplitColon(s[1..]);
      if s[0] == ':' then [""] + rest else [[s[0]] + rest[0]] + rest[1..]
  }

  function JoinColon(parts: seq<string>): string {
    if parts == [] then "" else if |parts| == 1 then parts[0] else parts[0] + ":" + JoinColon(parts[1..])
  }

  lemma JoinStep(parts: seq<string>)
    requires parts != []
    ensures JoinColon(parts) == if |parts| == 1 then parts[0] else parts[0] + ":" + JoinColon(parts[1..])
  {
  }

  lemma Regrouped(c: char, first: string, rest: string)
    ensures ([c] + first) + ":" + rest == [c] + (first + ":" + rest) && "" + ":" + rest == ":" + rest
  {
  }

  lemma JoinColonMore(c: char, parts: seq<string>)
    requires parts != []
    ensures JoinColon([[c] + parts[0]] + parts[1..]) == [c] + JoinColon(parts)
    ensures JoinColon([""] + parts) == ":" + JoinColon(parts)
  {
    var longer, more := [[c] + parts[0]] + parts[1..], [""] + parts;
    assert longer[1..] == parts[1..] && longer[0] == [c] + parts[0] && |longer| == |parts|;
    assert more[1..] == parts && more[0] == "" && |more| == |parts| + 1;
    JoinStep(parts);
    JoinStep(longer);
    JoinStep(more);
    Regrouped(c, parts[0], JoinColon(parts[1..]));
    Regrouped(c, "", JoinColon(parts));
    hide JoinColon;
  }

  ghost predicate ColonFree(parts: seq<string>) {
    forall i :: 0 <= i < |parts| ==> ':' !in parts[i]
  }

  /** Splitting leaves no colon in any part, and joining the parts gives the string back. */
  lemma {:induction false} SplitExactly(s: string)
    ensures JoinColon(SplitColon(s)) == s && ColonFree(SplitColon(s))
  {
    if s != "" {
      var rest := SplitColon(s[1..]);
      SplitExactly(s[1..]);
      JoinColonMore(s[0], rest);
      hide JoinColon;
      assert s == [s[0]] + s[1..];
    }
  }

  function BindDestinations(binds: seq<string>): set<string> {
    set b | b in binds && |SplitColon(b)| >= 2 :: SplitColon(b)[1]
  }

  /** Destinations that the run command mounted by itself. */
  function ExplicitDestinations(c: Container): set<string> {
    (set h | h in c.hostMounts && h.isVolume :: h.destination) + BindDestinations(c.binds)
  }

  /** A volume that the image declared and Docker created for this container. */
  predicate ImageCreated(c: Container, m: Mount) {
    && m.destination in c.declaredVolumes
    && m.destination !in ExplicitDestinations(c)
    && !c.volumesFrom
    && AnonymousName(m.name)
  }

  function AnonymousMounts(c: Container, mounts: seq<Mount>): seq<AnonymousMount> {
    if mounts == [] then []
    else
      var last := mounts[|mounts| - 1];
      AnonymousMounts(c, mounts[..|mounts| - 1])
      + if last.isVolume && ImageCreated(c, last) then [AnonymousMount(last.name, last.destination)] else []
  }

  function UnsafeMounts(c: Container, mounts: seq<Mount>): seq<string> {
    if mounts == [] then []
    else
      var last := mounts[|mounts| - 1];
      UnsafeMounts(c, mounts[..|mounts| - 1])
      + if last.isVolume && !ImageCreated(c, last) then [last.destination] else []
  }

  method ContainerVolumeMounts(c: Container) returns (anonymous: seq<AnonymousMount>, unsafe: seq<string>)
    ensures anonymous == AnonymousMounts(c, c.mounts) && unsafe == UnsafeMounts(c, c.mounts)
  {
    var explicit := set h | h in c.hostMounts && h.isVolume :: h.destination;
    for i := 0 to |c.binds|
      invariant explicit == (set h | h in c.hostMounts && h.isVolume :: h.destination) + BindDestinations(c.binds[..i])
    {
      PrefixStep(c.binds, i);
      var parts := SplitColon(c.binds[i]);
      if |parts| >= 2 {
        explicit := explicit + {parts[1]};
      }
    }
    assert c.binds[..|c.binds|] == c.binds;
    assert explicit == ExplicitDestinations(c);
    anonymous, unsafe := [], [];
    for i := 0 to |c.mounts|
      invariant anonymous == AnonymousMounts(c, c.mounts[..i]) && unsafe == UnsafeMounts(c, c.mounts[..i])
    {
      PrefixStep(c.mounts, i);
      var m := c.mounts[i];
      if m.isVolume {
        if m.destination !in c.declaredVolumes || m.destination in explicit || c.volumesFrom || !AnonymousName(m.name) {
          unsafe := unsafe + [m.destination];
        } else {
          anonymous := anonymous + [AnonymousMount(m.name, m.destination)];
        }
      }
    }
    assert c.mounts[..|c.mounts|] == c.mounts;
  }

  lemma {:induction false} MountsHold(c: Container, mounts: seq<Mount>)
    ensures forall m :: m in AnonymousMounts(c, mounts) ==> AnonymousName(m.name)
    ensures forall m :: m in mounts && m.isVolume && ImageCreated(c, m)
              ==> AnonymousMount(m.name, m.destination) in AnonymousMounts(c, mounts)
    ensures UnsafeMounts(c, mounts) == [] <==> forall m :: m in mounts && m.isVolume ==> ImageCreated(c, m)
  {
    hide AnonymousName;
    hide ExplicitDestinations;
    if mounts != [] {
      var earlier, last := mounts[..|mounts| - 1], mounts[|mounts| - 1];
      MountsHold(c, earlier);
      assert mounts == earlier + [last];
      assert last in mounts;
    }
  }

  // ----- run names and ownership -----

  predicate Between(s: string, lo: nat, hi: nat, ok: char -> bool)
    requires lo <= hi <= |s|
  {
    forall i :: lo <= i < hi ==> ok(s[i])
  }

  /** `c8b-` date `t` time `z-` eight hexadecimal digits. */
  predicate ValidRunId(id: string) {
    && |id| == 29 && id[..4] == "c8b-" && id[12] == 't' && id[19..21] == "z-"
    && Between(id, 4, 12, c => '0' <= c <= '9')
    && Between(id, 13, 19, c => '0' <= c <= '9')
    && Between(id, 21, 29, HexDigit)
  }

  /** The exact container names of the run, in inspection order. */
  function RunNames(runId: string): seq<string> {
    ["i3-c8b-spark-" + runId, "i3-c8b-kafka-" + runId, "i3-c8b-mongo-" + runId, "i3-c8b-owner-helper-" + runId]
  }

  function NetworkName(runId: string): string {
    "i3-c8b-net-" + runId
  }

  predicate ContainerOwned(c: Container, name: string, runId: string) {
    StripSlashes(c.name) == name && RunLabelled(c.labels, runId)
  }

  predicate NetworkOwned(n: Network, runId: string) {
    n.name == NetworkName(runId) && RunLabelled(n.labels, runId)
  }

  ghost predicate OwnedByRun(c: Container, runId: string) {
    exists i :: 0 <= i < |RunNames(runId)| && ContainerOwned(c, RunNames(runId)[i], runId)
  }

  /** Only slashes go, and all of them at the front. */
  lemma {:induction false} SlashesStripped(name: string) returns (slashes: string)
    ensures name == slashes + StripSlashes(name) && forall i :: 0 <= i < |slashes| ==> slashes[i] == '/'
    ensures StripSlashes(name) != "" ==> StripSlashes(name)[0] != '/'
  {
    slashes := "";
    if name != "" && name[0] == '/' {
      var rest := name[1..];
      var inner := SlashesStripped(rest);
      slashes := "/" + inner;
      assert name == "/" + rest;
      assert StripSlashes(name) == StripSlashes(rest);
      hide StripSlashes;
      assert "/" + (inner + StripSlashes(rest)) == ("/" + inner) + StripSlashes(rest);
    }
  }

  /** What belongs to a run carries its two labels and one of its exact names. */
  lemma OwnedExactly(runId: string)
    ensures forall c :: OwnedByRun(c, runId) <==>
              && StripSlashes(c.name) in {"i3-c8b-spark-" + runId, "i3-c8b-kafka-" + runId, "i3-c8b-mongo-" + runId, "i3-c8b-owner-helper-" + runId}
              && LabelIs(c.labels, "codex.task", "c8b") && LabelIs(c.labels, "codex.run", runId)
    ensures forall n :: NetworkOwned(n, runId) <==>
              n.name == "i3-c8b-net-" + runId && LabelIs(n.labels, "codex.task", "c8b") && LabelIs(n.labels, "codex.run", runId)
  {
    hide StripSlashes;
    forall c ensures OwnedByRun(c, runId) <==> StripSlashes(c.name) in RunNames(runId) && RunLabelled(c.labels, runId) {
      if StripSlashes(c.name) in RunNames(runId) && RunLabelled(c.labels, runId) {
        var i :| 0 <= i < |RunNames(runId)| && RunNames(runId)[i] == StripSlashes(c.name);
        assert ContainerOwned(c, RunNames(runId)[i], runId);
      }
    }
  }

  predicate Digits(s: string, n: nat) {
    |s| == n && forall i :: 0 <= i < n ==> s[i] in "0123456789"
  }

  predicate HexDigits8(s: string) {
    |s| == 8 && forall i :: 0 <= i < 8 ==> s[i] in "0123456789abcdef"
  }

  lemma RunIdParts(day: string, time: string, suffix: string)
    requires |day| == 8 && |time| == 6 && |suffix| == 8
    ensures var id := "c8b-" + day + "t" + time + "z-" + suffix;
            && |id| == 29 && id[..4] == "c8b-" && id[4..12] == day && id[12] == 't' && id[13..19] == time && id[19..21] == "z-"
            && id[21..29] == suffix
  {
  }

  lemma RunIdWhole(id: string)
    requires |id| == 29 && id[..4] == "c8b-" && id[12] == 't' && id[19..21] == "z-"
    ensures id == "c8b-" + id[4..12] + "t" + id[13..19] + "z-" + id[21..29]
  {
    assert [id[12]] == "t";
    assert id == id[..4] + id[4..12] + [id[12]] + id[13..19] + id[19..21] + id[21..29];
  }

  lemma BetweenDigits(id: string, lo: nat, hi: nat)
    requires lo <= hi <= |id|
    ensures Between(id, lo, hi, c => '0' <= c <= '9') <==> Digits(id[lo..hi], hi - lo)
  {
    forall c: char ensures '0' <= c <= '9' <==> c in "0123456789" {
    }
    assert forall i :: lo <= i < hi ==> id[i] == id[lo..hi][i - lo];
  }

  lemma BetweenHex(id: string)
    requires |id| == 29
    ensures Between(id, 21, 29, HexDigit) <==> HexDigits8(id[21..29])
  {
    forall c: char ensures HexDigit(c) <==> c in "0123456789abcdef" {
    }
    assert forall i :: 21 <= i < 29 ==> id[i] == id[21..29][i - 21];
  }

  /** A run ID names a UTC day, a time of day and eight hexadecimal digits. */
  lemma ValidRunIdExactly(id: string)
    ensures ValidRunId(id) <==>
            exists day, time, suffix :: Digits(day, 8) && Digits(time, 6) && HexDigits8(suffix)
              && id == "c8b-" + day + "t" + time + "z-" + suffix
  {
    if |id| == 29 {
      BetweenDigits(id, 4, 12);
      BetweenDigits(id, 13, 19);
      BetweenHex(id);
    }
    hide Between, Digits, HexDigits8;
    if ValidRunId(id) {
      RunIdWhole(id);
    }
    if day, time, suffix :| Digits(day, 8) && Digits(time, 6) && HexDigits8(suffix) && id == "c8b-" + day + "t" + time + "z-" + suffix {
      assert |day| == 8 && |time| == 6 && |suffix| == 8 by { PartLengths(day, time, suffix); }
      RunIdParts(day, time, suffix);
    }
  }

  lemma PartLengths(day: string, time: string, suffix: string)
    requires Digits(day, 8) && Digits(time, 6) && HexDigits8(suffix)
    ensures |day| == 8 && |time| == 6 && |suffix| == 8
  {
  }

  // ----- the persisted receipt -----

  /** One captured volume as the receipt file holds it; None is a field that is no list. */
  datatype DocumentVolume = DocumentVolume(name: string, destination: Option<string>, containerIds: Option<seq<string>>)

  datatype ReceiptFile = Absent | Unreadable | Document(runId: string, volumes: seq<DocumentVolume>)

  datatype Captured = Captured(name: string, destination: string, containerIds: seq<string>)

  predicate ValidVolume(v: DocumentVolume) {
    AnonymousName(v.name) && v.containerIds.Some?
  }

  function Names(captured: seq<Captured>): set<string> {
    set v | v in captured :: v.name
  }

  /** The volumes that a later call of the same run will still know. */
  function RecordedNames(file: ReceiptFile, runId: string): set<string> {
    if file.Document? && file.runId == runId
    then set v | v in file.volumes && ValidVolume(v) :: v.name
    else {}
  }

  function AsDocument(runId: string, captured: seq<Captured>): ReceiptFile {
    Document(runId, seq(|captured|, i requires 0 <= i < |captured| =>
                      DocumentVolume(captured[i].name, Some(captured[i].destination), Some(captured[i].containerIds))))
  }

  ghost predicate AllAnonymous(captured: seq<Captured>) {
    forall v :: v in captured ==> AnonymousName(v.name)
  }

  lemma PersistedNames(runId: string, captured: seq<Captured>)
    requires AllAnonymous(captured)
    ensures RecordedNames(AsDocument(runId, captured), runId) == Names(captured)
  {
    hide AnonymousName;
    var volumes := AsDocument(runId, captured).volumes;
    forall v | v in captured ensures v.name in RecordedNames(AsDocument(runId, captured), runId) {
      var i :| 0 <= i < |captured| && captured[i] == v;
      assert volumes[i] in volumes && volumes[i].name == v.name;
    }
  }

  class ReceiptStore {
    var file: ReceiptFile

    constructor (file: ReceiptFile)
      ensures this.file == file
    {
      this.file := file;
    }
  }

  // ----- reading the previous receipt -----

  function ValidNames(volumes: seq<DocumentVolume>): set<string> {
    set v | v in volumes && ValidVolume(v) :: v.name
  }

  lemma NamesOfOneMore(captured: seq<Captured>, v: Captured)
    ensures Names(captured + [v]) == Names(captured) + {v.name}
  {
    assert forall x :: x in captured + [v] <==> x in captured || x == v;
  }

  lemma ValidNamesOfOneMore(volumes: seq<DocumentVolume>, v: DocumentVolume)
    ensures ValidNames(volumes + [v]) == ValidNames(volumes) + if ValidVolume(v) then {v.name} else {}
  {
    hide ValidVolume;
    assert forall x :: x in volumes + [v] <==> x in volumes || x == v;
  }

  /** There is no receipt yet, or one of this run in which every captured volume has a proper identity. */
  predicate ReceiptUsable(file: ReceiptFile, runId: string) {
    || file.Absent?
    || (&& file.Document? && file.runId == runId
        && forall v :: v in file.volumes ==> AnonymousName(v.name) && v.containerIds.Some?)
  }

  /** The volume is one of the file, with its container IDs and, unless the file has none, its destination. */
  ghost predicate FromReceipt(v: Captured, file: ReceiptFile) {
    file.Document? && exists w :: w in file.volumes && w.name == v.name && w.containerIds == Some(v.containerIds)
                                  && v.destination == w.destination.GetOr("previous cleanup inspection")
  }

  lemma LoadedOneMore(captured: seq<Captured>, known: Captured, v: DocumentVolume, file: ReceiptFile)
    requires AllAnonymous(captured) && DistinctBy(captured, (c: Captured) => c.name) && forall c :: c in captured ==> FromReceipt(c, file)
    requires file.Document? && v in file.volumes && ValidVolume(v) && known.name == v.name && known.name !in Names(captured)
    requires v.containerIds == Some(known.containerIds) && known.destination == v.destination.GetOr("previous cleanup inspection")
    ensures AllAnonymous(captured + [known]) && Names(captured + [known]) == Names(captured) + {known.name}
    ensures DistinctBy(captured + [known], (c: Captured) => c.name) && forall c :: c in captured + [known] ==> FromReceipt(c, file)
  {
    hide AnonymousName;
    NamesOfOneMore(captured, known);
    assert forall i :: 0 <= i < |captured| ==> captured[i] in captured && captured[i].name in Names(captured);
    assert FromReceipt(known, file);
  }

  lemma ValidIsRecorded(file: ReceiptFile, runId: string)
    requires file.Document? && file.runId == runId
    ensures RecordedNames(file, runId) == ValidNames(file.volumes)
  {
    hide ValidVolume;
  }

  lemma NothingLoaded()
    ensures Names([]) == {} && ValidNames([]) == {} && AllAnonymous([])
  {
  }

  method LoadPrevious(file: ReceiptFile, runId: string) returns (captured: seq<Captured>, errors: seq<string>)
    ensures Names(captured) == RecordedNames(file, runId) && AllAnonymous(captured)
    ensures errors == [] <==> ReceiptUsable(file, runId)
    ensures DistinctBy(captured, (v: Captured) => v.name)
    ensures forall v :: v in captured ==> FromReceipt(v, file)
  {
    hide AnonymousName, AllAnonymous, Names, ValidNames, FromReceipt;
    NothingLoaded();
    captured, errors := [], [];
    if file.Unreadable? {
      errors := ["existing cleanup receipt could not be validated"];
    } else if file.Document? && file.runId != runId {
      errors := ["existing cleanup receipt belongs to a different run ID"];
    } else if file.Document? {
      for i := 0 to |file.volumes|
        invariant Names(captured) == ValidNames(file.volumes[..i]) && AllAnonymous(captured)
        invariant errors == [] <==> forall j :: 0 <= j < i ==> ValidVolume(file.volumes[j])
        invariant DistinctBy(captured, (c: Captured) => c.name) && forall v :: v in captured ==> FromReceipt(v, file)
      {
        var v := file.volumes[i];
        PrefixStep(file.volumes, i);
        ValidNamesOfOneMore(file.volumes[..i], v);
        if !ValidVolume(v) {
          errors := errors + ["invalid captured volume identity"];
        } else if v.name !in Names(captured) {
          var known := Captured(v.name, v.destination.GetOr("previous cleanup inspection"), v.containerIds.value);
          LoadedOneMore(captured, known, v, file);
          captured := captured + [known];
        }
      }
      assert file.volumes[..|file.volumes|] == file.volumes;
      ValidIsRecorded(file, runId);
      assert (forall v :: v in file.volumes ==> ValidVolume(v)) <==> forall j :: 0 <= j < |file.volumes| ==> ValidVolume(file.volumes[j]);
    }
  }

  // ----- inspecting the containers -----

  datatype Task = Task(id: string, name: string, container: Container, anonymous: seq<AnonymousMount>, unsafe: seq<string>)

  /** A container that was found under its exact name with the run's labels, with its mounts sorted out. */
  ghost predicate Verified(containers: map<string, Container>, runId: string, t: Task) {
    && t.id in containers && containers[t.id] == t.container
    && ContainerOwned(t.container, t.name, runId) && t.name in RunNames(runId)
    && t.anonymous == AnonymousMounts(t.container, t.container.mounts)
    && t.unsafe == UnsafeMounts(t.container, t.container.mounts)
  }

  ghost predicate Covers(captured: seq<Captured>, t: Task) {
    forall m :: m in t.anonymous ==> m.name in Names(captured)
  }

  method CaptureMounts(before: seq<Captured>, anonymous: seq<AnonymousMount>, containerId: string) returns (captured: seq<Captured>)
    requires AllAnonymous(before) && forall m :: m in anonymous ==> AnonymousName(m.name)
    ensures AllAnonymous(captured)
    ensures Names(captured) == Names(before) + MountNames(anonymous)
    ensures Keeps(before, captured) && forall i :: 0 <= i < |anonymous| ==> CapturedFor(captured, anonymous[i].name, containerId)
  {
    hide AnonymousName, AllAnonymous, Names, MountNames, Keeps, CapturedFor;
    NothingCaptured(before);
    captured := before;
    for i := 0 to |anonymous|
      invariant AllAnonymous(captured) && Names(captured) == Names(before) + MountNames(anonymous[..i]) && Keeps(before, captured)
      invariant forall j :: 0 <= j < i ==> CapturedFor(captured, anonymous[j].name, containerId)
    {
      ghost var earlier := captured;
      PrefixStep(anonymous, i);
      captured := CaptureMount(captured, anonymous[i], containerId);
      OneMoreMount(anonymous[..i], anonymous[i]);
      CapturedStays(before, earlier, captured, containerId);
    }
    assert anonymous[..|anonymous|] == anonymous;
  }

  /** Adds the container to the captured volume of the mount, or captures the volume. */
  method CaptureMount(before: seq<Captured>, m: AnonymousMount, containerId: string) returns (captured: seq<Captured>)
    requires AllAnonymous(before) && AnonymousName(m.name)
    ensures AllAnonymous(captured) && Names(captured) == Names(before) + {m.name}
    ensures Keeps(before, captured) && CapturedFor(captured, m.name, containerId)
  {
    hide AnonymousName;
    captured := before;
    if j :| 0 <= j < |captured| && captured[j].name == m.name {
      assert captured[j] in before;
      if containerId !in captured[j].containerIds {
        captured := captured[j := captured[j].(containerIds := captured[j].containerIds + [containerId])];
        SameNames(before, captured);
      }
      assert captured[j].name == m.name;
    } else {
      NamesOfOneMore(captured, Captured(m.name, m.destination, [containerId]));
      captured := captured + [Captured(m.name, m.destination, [containerId])];
      assert captured[|before|].name == m.name;
    }
  }

  lemma NothingCaptured(before: seq<Captured>)
    ensures Keeps(before, before) && MountNames([]) == {}
  {
  }

  lemma OneMoreMount(anonymous: seq<AnonymousMount>, m: AnonymousMount)
    ensures MountNames(anonymous + [m]) == MountNames(anonymous) + {m.name}
  {
    assert forall n :: n in anonymous + [m] <==> n in anonymous || n == m;
  }

  /** What was captured before keeps its place, its name and its destination; container IDs may be added. */
  ghost predicate Keeps(before: seq<Captured>, after: seq<Captured>) {
    && |before| <= |after|
    && forall i :: 0 <= i < |before| ==>
         after[i].name == before[i].name && after[i].destination == before[i].destination
         && before[i].containerIds <= after[i].containerIds
  }

  /** The volume is captured, with this container among its users. */
  ghost predicate CapturedFor(captured: seq<Captured>, volume: string, containerId: string) {
    exists i :: 0 <= i < |captured| && captured[i].name == volume && containerId in captured[i].containerIds
  }

  /** Capturing one more mount keeps what was captured before it. */
  lemma CapturedStays(first: seq<Captured>, before: seq<Captured>, after: seq<Captured>, containerId: string)
    requires Keeps(first, before) && Keeps(before, after)
    ensures Keeps(first, after)
    ensures forall volume :: CapturedFor(before, volume, containerId) ==> CapturedFor(after, volume, containerId)
  {
    forall volume | CapturedFor(before, volume, containerId) ensures CapturedFor(after, volume, containerId) {
      var i :| 0 <= i < |before| && before[i].name == volume && containerId in before[i].containerIds;
      assert after[i].name == volume;
    }
  }

  function MountNames(anonymous: seq<AnonymousMount>): set<string> {
    set m | m in anonymous :: m.name
  }

  /** The names of the volumes that the image-created mounts of the tasks refer to. */
  function TaskVolumes(tasks: seq<Task>): set<string> {
    set t, m | t in tasks && m in t.anonymous :: m.name
  }

  lemma VolumesOfOneMore(tasks: seq<Task>, t: Task)
    ensures TaskVolumes(tasks + [t]) == TaskVolumes(tasks) + MountNames(t.anonymous)
  {
    assert forall u :: u in tasks + [t] <==> u in tasks || u == t;
  }

  lemma SameNames(a: seq<Captured>, b: seq<Captured>)
    requires |a| == |b| && forall i :: 0 <= i < |a| ==> a[i].name == b[i].name
    ensures Names(a) == Names(b)
    ensures AllAnonymous(a) <==> AllAnonymous(b)
  {
    hide AnonymousName;
    forall n | n in Names(a) ensures n in Names(b) {
      var i :| 0 <= i < |a| && a[i].name == n;
      assert b[i] in b;
    }
    forall n | n in Names(b) ensures n in Names(a) {
      var i :| 0 <= i < |b| && b[i].name == n;
      assert a[i] in a;
    }
  }

  /** Sorts the mounts of a verified container out and captures the image-created ones. */
  method TakeTask(id: string, name: string, c: Container, captured: seq<Captured>) returns (t: Task, nowCaptured: seq<Captured>)
    requires AllAnonymous(captured)
    ensures t == Task(id, name, c, AnonymousMounts(c, c.mounts), UnsafeMounts(c, c.mounts))
    ensures AllAnonymous(nowCaptured) && Names(nowCaptured) == Names(captured) + TaskVolumes([t])
  {
    hide AnonymousName;
    var anonymous, unsafe := ContainerVolumeMounts(c);
    MountsHold(c, c.mounts);
    nowCaptured := CaptureMounts(captured, anonymous, id);
    t := Task(id, name, c, anonymous, unsafe);
    NoTaskVolumes();
    VolumesOfOneMore([], t);
    assert [] + [t] == [t];
  }

  /** Inspects one role; a verified container becomes a task and its anonymous volumes are captured. */
  method InspectRole(d: Docker, runId: string, name: string, persist: bool, tasks: seq<Task>, captured: seq<Captured>)
    returns (aborted: bool, found: seq<Task>, nowCaptured: seq<Captured>, errors: seq<string>, inspected: bool)
    requires AllAnonymous(captured) && name in RunNames(runId)
    requires forall t :: t in tasks ==> Verified(d.containers, runId, t)
    modifies d`failures
    ensures d.failures >= old(d.failures)
    ensures tasks <= found && AllAnonymous(nowCaptured) && Names(nowCaptured) == Names(captured) + TaskVolumes(found[|tasks|..])
    ensures forall t :: t in found ==> Verified(d.containers, runId, t)
    ensures !inspected ==> errors != []
    ensures errors == [] && !aborted ==> d.failures == old(d.failures)
    ensures d.failures == old(d.failures) ==>
              && !aborted && inspected
              && (UniqueNames(d.containers) ==> Tasked(d.containers, runId, name, found) && (errors == [] <==> NameFine(d.containers, runId, name)))
  {
    hide AllAnonymous, ContainerOwned, UniqueNames, Tasked, RunNames, NameFine, TaskVolumes, Names, AnonymousMounts, UnsafeMounts, StripSlashes;
    NoTaskVolumes();
    found, nowCaptured, errors, aborted := tasks, captured, [], false;
    var reply := d.InspectContainer(name);
    inspected := !reply.InspectionError?;
    assert found[|tasks|..] == [];
    if reply.InspectionError? {
      errors := [reply.detail];
    } else if reply.Found? {
      if !ContainerOwned(reply.resource, name, runId) {
        errors := ["refusing to remove: exact name or task/run labels do not match"];
      } else if reply.id == "" {
        errors := ["refusing to remove: inspection omitted the container ID"];
      } else {
        var task;
        task, nowCaptured := TakeTask(reply.id, name, reply.resource, captured);
        errors := task.unsafe;
        found := tasks + [task];
        assert found[|tasks|..] == [task] && found[|tasks|].id == reply.id;
        if persist {
          var logs := d.Logs(reply.id);
          aborted := logs.CommandRaised?;
        }
      }
    }
    if d.failures == old(d.failures) && UniqueNames(d.containers) {
      NameTasked(d.containers, runId, name, found, reply);
      NameFineExactly(d.containers, runId, name, reply);
    }
  }

  method InspectRoles(d: Docker, runId: string, persist: bool, loaded: seq<Captured>)
    returns (aborted: bool, rows: seq<string>, tasks: seq<Task>, captured: seq<Captured>, errors: seq<string>)
    requires AllAnonymous(loaded)
    modifies d`failures
    ensures d.failures >= old(d.failures)
    ensures AllAnonymous(captured) && Names(captured) == Names(loaded) + TaskVolumes(tasks)
    ensures forall t :: t in tasks ==> Verified(d.containers, runId, t)
    ensures !aborted && errors == [] ==> rows == RunNames(runId) && d.failures == old(d.failures)
    ensures d.failures == old(d.failures) ==>
              && !aborted && rows == RunNames(runId)
              && (UniqueNames(d.containers) ==> AllTasked(d.containers, runId, tasks) && (errors == [] <==> NamesFine(d.containers, runId)))
  {
    hide AnonymousName, AllAnonymous, Verified, UniqueNames, Tasked, AllTasked, TaskVolumes, NameFine, NamesFine;
    var names := RunNames(runId);
    hide RunNames;
    rows, tasks, captured, errors := [], [], loaded, [];
    NoTaskVolumes();
    for i := 0 to |names|
      invariant d.failures >= old(d.failures)
      invariant AllAnonymous(captured) && Names(captured) == Names(loaded) + TaskVolumes(tasks)
      invariant forall t :: t in tasks ==> Verified(d.containers, runId, t)
      invariant errors == [] ==> rows == names[..i] && d.failures == old(d.failures)
      invariant d.failures == old(d.failures) ==> rows == names[..i]
      invariant d.failures == old(d.failures) && UniqueNames(d.containers) ==>
        && (forall j :: 0 <= j < i ==> Tasked(d.containers, runId, names[j], tasks))
        && (errors == [] <==> forall j :: 0 <= j < i ==> NameFine(d.containers, runId, names[j]))
    {
      PrefixStep(names, i);
      ghost var earlier := tasks;
      var moreErrors, inspected;
      aborted, tasks, captured, moreErrors, inspected := InspectRole(d, runId, names[i], persist, tasks, captured);
      errors := errors + moreErrors;
      MoreTaskVolumes(earlier, tasks);
      if inspected {
        rows := rows + [names[i]];
      }
      if aborted {
        return;
      }
      if d.failures == old(d.failures) && UniqueNames(d.containers) {
        forall j | 0 <= j < i ensures Tasked(d.containers, runId, names[j], tasks) {
          TaskedStays(d.containers, runId, names[j], earlier, tasks);
        }
      }
    }
    if d.failures == old(d.failures) && UniqueNames(d.containers) {
      NamesTasked(d.containers, runId, tasks);
      NamesFineEach(d.containers, runId);
    }
    aborted := false;
  }

  lemma NoTaskVolumes()
    ensures TaskVolumes([]) == {}
  {
  }

  lemma MoreTaskVolumes(earlier: seq<Task>, tasks: seq<Task>)
    requires earlier <= tasks
    ensures TaskVolumes(tasks) == TaskVolumes(earlier) + TaskVolumes(tasks[|earlier|..])
  {
    assert tasks == earlier + tasks[|earlier|..];
    assert forall t :: t in tasks <==> t in earlier || t in tasks[|earlier|..];
  }

  // ----- nothing of the run is overlooked -----

  /** Docker lets no two containers share a name. */
  ghost predicate UniqueNames(containers: map<string, Container>) {
    forall a, b :: a in containers && b in containers && StripSlashes(containers[a].name) == StripSlashes(containers[b].name) ==> a == b
  }

  ghost predicate Tasked(containers: map<string, Container>, runId: string, name: string, tasks: seq<Task>) {
    forall id :: id in containers && ContainerOwned(containers[id], name, runId) ==> exists t :: t in tasks && t.id == id
  }

  /** Every container of the run is taken for removal. */
  ghost predicate AllTasked(containers: map<string, Container>, runId: string, tasks: seq<Task>) {
    forall id :: id in containers && OwnedByRun(containers[id], runId) ==> exists t :: t in tasks && t.id == id
  }

  /** Whatever has this name is the run's, and mounts image-created volumes only. */
  ghost predicate NameFine(containers: map<string, Container>, runId: string, name: string) {
    forall id :: id in containers && StripSlashes(containers[id].name) == name ==>
      RunLabelled(containers[id].labels, runId) && UnsafeMounts(containers[id], containers[id].mounts) == []
  }

  ghost predicate NamesFine(containers: map<string, Container>, runId: string) {
    forall id, i :: id in containers && 0 <= i < |RunNames(runId)| && StripSlashes(containers[id].name) == RunNames(runId)[i] ==>
      RunLabelled(containers[id].labels, runId) && UnsafeMounts(containers[id], containers[id].mounts) == []
  }

  lemma NamesFineEach(containers: map<string, Container>, runId: string)
    ensures NamesFine(containers, runId) <==> forall j :: 0 <= j < |RunNames(runId)| ==> NameFine(containers, runId, RunNames(runId)[j])
  {
    hide RunNames, StripSlashes, RunLabelled;
  }

  lemma NameFineExactly(containers: map<string, Container>, runId: string, name: string, reply: Inspection<Container>)
    requires UniqueNames(containers)
    requires reply.Missing? ==> forall id :: id in containers ==> StripSlashes(containers[id].name) != name
    requires reply.Found? ==> reply.id in containers && containers[reply.id] == reply.resource && StripSlashes(reply.resource.name) == name
    requires !reply.InspectionError?
    ensures NameFine(containers, runId, name) <==>
              (reply.Found? ==> ContainerOwned(reply.resource, name, runId) && UnsafeMounts(reply.resource, reply.resource.mounts) == [])
  {
    hide StripSlashes, RunLabelled;
    if reply.Found? {
      forall id | id in containers && StripSlashes(containers[id].name) == name ensures id == reply.id {
        assert StripSlashes(containers[reply.id].name) == name;
      }
    }
  }

  lemma TaskedStays(containers: map<string, Container>, runId: string, name: string, earlier: seq<Task>, tasks: seq<Task>)
    requires Tasked(containers, runId, name, earlier) && earlier <= tasks
    ensures Tasked(containers, runId, name, tasks)
  {
    hide ContainerOwned;
    assert forall t :: t in earlier ==> t in tasks;
  }

  lemma NameTasked(containers: map<string, Container>, runId: string, name: string, tasks: seq<Task>, reply: Inspection<Container>)
    requires UniqueNames(containers)
    requires reply.Missing? ==> forall id :: id in containers ==> StripSlashes(containers[id].name) != name
    requires reply.Found? ==> reply.id in containers && containers[reply.id] == reply.resource && StripSlashes(reply.resource.name) == name
    requires reply.Found? && ContainerOwned(reply.resource, name, runId) ==> exists t :: t in tasks && t.id == reply.id
    requires !reply.InspectionError?
    ensures Tasked(containers, runId, name, tasks)
  {
    hide StripSlashes, RunLabelled;
    forall id | id in containers && ContainerOwned(containers[id], name, runId) ensures exists t :: t in tasks && t.id == id {
      assert reply.Found? && id == reply.id;
    }
  }

  lemma NamesTasked(containers: map<string, Container>, runId: string, tasks: seq<Task>)
    requires forall j :: 0 <= j < |RunNames(runId)| ==> Tasked(containers, runId, RunNames(runId)[j], tasks)
    ensures AllTasked(containers, runId, tasks)
  {
    hide ContainerOwned, RunNames;
    forall id | id in containers && OwnedByRun(containers[id], runId) ensures exists t :: t in tasks && t.id == id {
      var j :| 0 <= j < |RunNames(runId)| && ContainerOwned(containers[id], RunNames(runId)[j], runId);
      assert Tasked(containers, runId, RunNames(runId)[j], tasks);
    }
  }

  // ----- users outside the run -----

  predicate SameContainerId(owned: string, listed: string) {
    owned == listed || listed <= owned || owned <= listed
  }

  /** Each abbreviated ID stands for one container only. */
  ghost predicate IdsDistinguishable(containers: map<string, Container>) {
    forall a, b :: a in containers && b in containers && SameContainerId(a, Abbreviated(b)) ==> a == b
  }

  predicate ListedAsOwned(ownedIds: set<string>, listed: string) {
    exists o :: o in ownedIds && SameContainerId(o, listed)
  }

  /** As far as the listing shows, every container that mounts the volume is one of the run's. */
  ghost predicate UsersListedAsOwned(containers: map<string, Container>, ownedIds: set<string>, volume: string) {
    forall id :: id in UsersOf(containers, volume) ==> ListedAsOwned(ownedIds, Abbreviated(id))
  }

  method FindExternal(d: Docker, captured: seq<Captured>, ownedIds: set<string>)
    returns (aborted: bool, external: set<string>, errors: seq<string>)
    modifies d`failures
    ensures d.failures >= old(d.failures)
    ensures !aborted ==> forall n :: n in Names(captured) && n !in external ==> UsersListedAsOwned(d.containers, ownedIds, n)
    ensures !aborted && errors == [] ==> d.failures == old(d.failures)
    ensures d.failures == old(d.failures) ==>
              && !aborted && (errors == [] <==> external == {})
              && forall n :: n in external ==> n in Names(captured) && !UsersListedAsOwned(d.containers, ownedIds, n)
  {
    hide SameContainerId;
    external, errors := {}, [];
    for i := 0 to |captured|
      invariant d.failures >= old(d.failures) && (errors == [] ==> d.failures == old(d.failures))
      invariant d.failures == old(d.failures) ==>
        && (errors == [] <==> external == {})
        && forall n :: n in external ==> n in Names(captured) && !UsersListedAsOwned(d.containers, ownedIds, n)
      invariant forall j :: 0 <= j < i && captured[j].name !in external
                  ==> UsersListedAsOwned(d.containers, ownedIds, captured[j].name)
    {
      var volume := captured[i];
      var listing := d.ListVolumeUsers(volume.name);
      if listing.ListingRaised? {
        return true, external, errors;
      } else if listing.ListingFailed? {
        errors := errors + ["could not verify users of a captured volume"];
        external := external + {volume.name};
      } else {
        var outside := set listed | listed in listing.ids && !ListedAsOwned(ownedIds, listed);
        if outside != {} {
          OutsideUser(d.containers, ownedIds, volume.name, outside);
          errors := errors + ["captured volume is also referenced outside this run"];
          external := external + {volume.name};
        } else {
          forall id | id in UsersOf(d.containers, volume.name) ensures ListedAsOwned(ownedIds, Abbreviated(id)) {
            assert Abbreviated(id) in listing.ids;
            assert Abbreviated(id) !in outside;
          }
        }
      }
    }
    aborted := false;
  }

  lemma OutsideUser(containers: map<string, Container>, ownedIds: set<string>, volume: string, outside: set<string>)
    requires outside != {} && forall listed :: listed in outside ==> listed in AbbreviatedUsers(containers, volume) && !ListedAsOwned(ownedIds, listed)
    ensures !UsersListedAsOwned(containers, ownedIds, volume)
  {
    hide ListedAsOwned;
    var listed := Inhabitant(outside);
    var id :| id in UsersOf(containers, volume) && Abbreviated(id) == listed;
  }

  // ----- removal -----

  predicate KeepsVolumes(t: Task, external: set<string>) {
    t.unsafe != [] || exists m :: m in t.anonymous && m.name in external
  }

  /** Only tasks' containers go, and only with volumes of tasks that had nothing to keep. */
  ghost predicate RemovedOnly(before: map<string, Container>, volumesBefore: set<string>,
                              after: map<string, Container>, volumesAfter: set<string>,
                              tasks: seq<Task>, external: set<string>) {
    && after.Keys <= before.Keys && volumesAfter <= volumesBefore
    && (forall id :: id in after ==> after[id] == before[id])
    && (forall id :: id in before && id !in after ==> exists t :: t in tasks && t.id == id)
    && (forall v :: v in volumesBefore && v !in volumesAfter
          ==> exists t :: t in tasks && !KeepsVolumes(t, external) && v in VolumesOf(t.container))
  }

  function TaskIds(tasks: seq<Task>): set<string> {
    set t | t in tasks :: t.id
  }

  /** The removals that the tasks call for, in order. */
  function Planned(tasks: seq<Task>, external: set<string>): seq<Removal> {
    seq(|tasks|, i requires 0 <= i < |tasks| => Removal(tasks[i].id, !KeepsVolumes(tasks[i], external)))
  }

  lemma NothingPlanned(external: set<string>)
    ensures Planned([], external) == [] && TaskIds([]) == {}
  {
  }

  lemma OneMorePlanned(tasks: seq<Task>, t: Task, external: set<string>)
    ensures Planned(tasks + [t], external) == Planned(tasks, external) + [Removal(t.id, !KeepsVolumes(t, external))]
    ensures TaskIds(tasks + [t]) == TaskIds(tasks) + {t.id}
  {
    hide KeepsVolumes;
    assert forall u :: u in tasks + [t] <==> u in tasks || u == t;
  }

  method RemoveContainers(d: Docker, runId: string, tasks: seq<Task>, external: set<string>)
    returns (aborted: bool, errors: seq<string>)
    requires forall t :: t in tasks ==> Verified(d.containers, runId, t)
    modifies d`removals, d`failures, d`containers, d`volumes
    ensures d.failures >= old(d.failures)
    ensures RemovedOnly(old(d.containers), old(d.volumes), d.containers, d.volumes, tasks, external)
    ensures d.failures == old(d.failures) <==> !aborted && errors == []
    ensures d.failures == old(d.failures) ==> d.containers == old(d.containers) - TaskIds(tasks)
    ensures exists n :: 0 <= n <= |tasks| && d.removals == old(d.removals) + Planned(tasks[..n], external) && (!aborted ==> n == |tasks|)
  {
    hide ContainerOwned, KeepsVolumes, AnonymousMounts, UnsafeMounts, RunNames, TaskIds, Planned;
    NothingPlanned(external);
    errors := [];
    for i := 0 to |tasks|
      invariant d.failures >= old(d.failures) && (d.failures == old(d.failures) <==> errors == [])
      invariant d.failures == old(d.failures) ==> d.containers == old(d.containers) - TaskIds(tasks[..i])
      invariant d.removals == old(d.removals) + Planned(tasks[..i], external)
      invariant RemovedOnly(old(d.containers), old(d.volumes), d.containers, d.volumes, tasks, external)
    {
      var t := tasks[i];
      assert t in tasks;
      PrefixStep(tasks, i);
      OneMorePlanned(tasks[..i], t, external);
      var result := d.Remove(t.id, !KeepsVolumes(t, external));
      if result.CommandRaised? {
        return true, errors;
      } else if result.CommandFailed? {
        errors := errors + ["could not remove a verified container"];
      }
    }
    assert tasks[..|tasks|] == tasks;
    aborted := false;
  }

  /** Docker lets no two networks of a run share its name. */
  ghost predicate UniqueNetwork(networks: map<string, Network>, runId: string) {
    forall a, b :: a in networks && b in networks && networks[a].name == NetworkName(runId) == networks[b].name ==> a == b
  }

  /**
   What one step without a failure does about the network of the run: an owned one is removed, and nothing else
   is asked for; one that has the name but not the labels is left alone and objected to.
   */
  ghost predicate NetworkHandled(before: map<string, Network>, after: map<string, Network>, issued: seq<string>, runId: string, fine: bool) {
    if fine then
      || (issued == [] && after == before && forall id :: id in before ==> before[id].name != NetworkName(runId))
      || (exists id :: id in before && NetworkOwned(before[id], runId) && issued == [id] && after == before - {id})
    else
      issued == [] && after == before
      && exists id :: id in before && before[id].name == NetworkName(runId) && !RunLabelled(before[id].labels, runId)
  }

  method RemoveRunNetwork(d: Docker, runId: string) returns (aborted: bool, errors: seq<string>)
    modifies d`networkRemovals, d`failures, d`networks
    ensures d.failures >= old(d.failures)
    ensures OnlyOwnNetworkGoes(old(d.networks), d.networks, runId)
    ensures old(d.networkRemovals) <= d.networkRemovals && |d.networkRemovals| <= |old(d.networkRemovals)| + 1
    ensures forall id :: id in d.networkRemovals[|old(d.networkRemovals)|..] ==>
              id == "" || (id in old(d.networks) && NetworkOwned(old(d.networks)[id], runId))
    ensures !aborted && errors == [] ==> d.failures == old(d.failures)
    ensures d.failures == old(d.failures) ==>
              !aborted && NetworkHandled(old(d.networks), d.networks, d.networkRemovals[|old(d.networkRemovals)|..], runId, errors == [])
  {
    hide NetworkName, RunLabelled;
    errors := [];
    var reply := d.InspectNetwork(NetworkName(runId));
    if reply.InspectionError? {
      errors := [reply.detail];
    } else if reply.Found? {
      if !NetworkOwned(reply.resource, runId) {
        errors := ["refusing to remove: exact name or task/run labels do not match"];
      } else {
        var result := d.RemoveNetwork(reply.id);
        assert d.networkRemovals[|old(d.networkRemovals)|..] == [reply.id];
        if result.CommandRaised? {
          return true, errors;
        } else if result.CommandFailed? {
          errors := ["could not remove the verified network"];
        }
      }
    }
    aborted := false;
  }

  // ----- looking again -----

  datatype Remaining = Remaining(containers: seq<string>, networks: seq<string>, volumes: seq<string>) {
    predicate Nothing() {
      containers == [] && networks == [] && volumes == []
    }
  }

  /** No container or network of the run is left, by name or by label, and no captured volume. */
  ghost predicate Clean(containers: map<string, Container>, networks: map<string, Network>, volumes: set<string>,
                        runId: string, captured: set<string>) {
    && (forall id, i :: id in containers && 0 <= i < |RunNames(runId)| ==> StripSlashes(containers[id].name) != RunNames(runId)[i])
    && (forall id :: id in containers ==> !RunLabelled(containers[id].labels, runId))
    && (forall id :: id in networks ==> networks[id].name != NetworkName(runId) && !RunLabelled(networks[id].labels, runId))
    && captured !! volumes
  }

  method LookForContainers(d: Docker, rows: seq<string>) returns (left: seq<string>, errors: seq<string>)
    modifies d`failures
    ensures d.failures >= old(d.failures)
    ensures left == [] ==> forall i, id :: 0 <= i < |rows| && id in d.containers ==> StripSlashes(d.containers[id].name) != rows[i]
    ensures errors == [] && left == [] ==> d.failures == old(d.failures)
    ensures d.failures == old(d.failures) ==>
              && errors == []
              && (left != [] ==> exists i, id :: 0 <= i < |rows| && id in d.containers && StripSlashes(d.containers[id].name) == rows[i])
  {
    left, errors := [], [];
    for i := 0 to |rows|
      invariant d.failures >= old(d.failures) && (errors == [] && left == [] ==> d.failures == old(d.failures))
      invariant left == [] ==> forall j, id :: 0 <= j < i && id in d.containers ==> StripSlashes(d.containers[id].name) != rows[j]
      invariant d.failures == old(d.failures) ==>
        && errors == []
        && (left != [] ==> exists j, id :: 0 <= j < i && id in d.containers && StripSlashes(d.containers[id].name) == rows[j])
    {
      var reply := d.InspectContainer(rows[i]);
      if reply.InspectionError? {
        errors := errors + [reply.detail];
        left := left + ["inspection-error"];
      } else if reply.Found? {
        left := left + [if reply.id != "" then reply.id else rows[i]];
      }
    }
  }

  method LookForNetwork(d: Docker, runId: string) returns (left: seq<string>, errors: seq<string>)
    modifies d`failures
    ensures d.failures >= old(d.failures)
    ensures left == [] ==> forall id :: id in d.networks ==> d.networks[id].name != NetworkName(runId)
    ensures errors == [] && left == [] ==> d.failures == old(d.failures)
    ensures d.failures == old(d.failures) ==>
              errors == [] && (left != [] ==> exists id :: id in d.networks && d.networks[id].name == NetworkName(runId))
  {
    left, errors := [], [];
    var reply := d.InspectNetwork(NetworkName(runId));
    if reply.InspectionError? {
      errors := [reply.detail];
      left := [NetworkName(runId)];
    } else if reply.Found? {
      left := [if reply.id != "" then reply.id else NetworkName(runId)];
    }
  }

  method LookForVolumes(d: Docker, captured: seq<Captured>) returns (left: seq<string>, errors: seq<string>)
    modifies d`failures
    ensures d.failures >= old(d.failures)
    ensures left == [] ==> Names(captured) !! d.volumes
    ensures errors == [] && left == [] ==> d.failures == old(d.failures)
    ensures d.failures == old(d.failures) ==> errors == [] && (left != [] ==> !(Names(captured) !! d.volumes))
  {
    left, errors := [], [];
    for i := 0 to |captured|
      invariant d.failures >= old(d.failures) && (errors == [] && left == [] ==> d.failures == old(d.failures))
      invariant d.failures == old(d.failures) ==>
        errors == [] && (left != [] ==> exists j :: 0 <= j < i && captured[j].name in d.volumes)
      invariant left == [] ==> forall j :: 0 <= j < i ==> captured[j].name !in d.volumes
    {
      var reply := d.InspectVolume(captured[i].name);
      if reply.InspectionError? {
        errors := errors + [reply.detail];
      }
      if !reply.Missing? {
        left := left + [captured[i].name];
      }
    }
  }

  function ListedSequence(listing: Listing, marker: string): seq<string> {
    if listing.Ids? && listing.ids == {} then [] else [marker]
  }

  method LookAgain(d: Docker, runId: string, rows: seq<string>, captured: seq<Captured>) returns (left: Remaining, errors: seq<string>)
    modifies d`failures
    ensures d.failures >= old(d.failures)
    ensures left.Nothing() && rows == RunNames(runId)
            ==> Clean(d.containers, d.networks, d.volumes, runId, Names(captured))
    ensures errors == [] && left.Nothing() ==> d.failures == old(d.failures)
    ensures d.failures == old(d.failures) ==>
              && errors == []
              && (rows == RunNames(runId) && Clean(d.containers, d.networks, d.volumes, runId, Names(captured)) ==> left.Nothing())
  {
    hide RunNames;
    hide NetworkName;
    hide RunLabelled;
    hide StripSlashes;
    var containersLeft, containerErrors := LookForContainers(d, rows);
    var networksLeft, networkErrors := LookForNetwork(d, runId);
    var volumesLeft, volumeErrors := LookForVolumes(d, captured);
    errors := containerErrors + networkErrors + volumeErrors;
    var labelledContainers := d.ListRunContainers(runId);
    if !labelledContainers.Ids? {
      errors := errors + ["could not verify remaining task containers"];
    }
    var labelledNetworks := d.ListRunNetworks(runId);
    if !labelledNetworks.Ids? {
      errors := errors + ["could not verify remaining task networks"];
    }
    left := Remaining(containersLeft + ListedSequence(labelledContainers, "labelled containers"),
                      networksLeft + ListedSequence(labelledNetworks, "labelled networks"),
                      volumesLeft);
  }

  // ----- one call -----

  datatype Report = Report(complete: bool, captured: seq<Captured>, remaining: Remaining, errors: seq<string>)

  /** A call rejects the run ID, dies on a command it could not run, or returns its receipt. */
  datatype Outcome = Rejected | Aborted | Returned(report: Report)

  datatype World = World(containers: map<string, Container>, networks: map<string, Network>, volumes: set<string>, file: ReceiptFile)

  /**
   The container may be removed together with its volumes: it is the run's, it mounts image-created
   volumes only, and no container outside the run uses any of them.
   */
  ghost predicate Droppable(containers: map<string, Container>, runId: string, id: string)
    requires id in containers
  {
    && OwnedByRun(containers[id], runId)
    && UnsafeMounts(containers[id], containers[id].mounts) == []
    && forall volume, user :: volume in VolumesOf(containers[id]) && user in UsersOf(containers, volume)
         ==> OwnedByRun(containers[user], runId)
  }

  /** The volume may go: a container that may be removed with its volumes mounts it. */
  ghost predicate MayDrop(containers: map<string, Container>, runId: string, volume: string) {
    exists id :: id in containers && volume in VolumesOf(containers[id]) && Droppable(containers, runId, id)
  }

  /** Some removal with `-v` names a container that mounts the volume. */
  ghost predicate DropRequested(containers: map<string, Container>, removals: seq<Removal>, volume: string) {
    exists i :: 0 <= i < |removals| && removals[i].withVolumes && removals[i].id in containers && volume in VolumesOf(containers[removals[i].id])
  }

  /** Only containers of the run go, and only volumes that may. */
  ghost predicate OnlyOwnedGo(before: map<string, Container>, volumesBefore: set<string>,
                              after: map<string, Container>, volumesAfter: set<string>, runId: string) {
    && after.Keys <= before.Keys && volumesAfter <= volumesBefore
    && (forall id :: id in after ==> after[id] == before[id])
    && (forall id :: id in before && id !in after ==> OwnedByRun(before[id], runId))
    && (IdsDistinguishable(before) ==> forall volume :: volume in volumesBefore && volume !in volumesAfter ==> MayDrop(before, runId, volume))
  }

  ghost predicate OnlyOwnNetworkGoes(before: map<string, Network>, after: map<string, Network>, runId: string) {
    && after.Keys <= before.Keys
    && (forall id :: id in after ==> after[id] == before[id])
    && (forall id :: id in before && id !in after ==> NetworkOwned(before[id], runId))
  }

  ghost predicate RemovesOnlyOwned(w: World, v: World, runId: string) {
    OnlyOwnedGo(w.containers, w.volumes, v.containers, v.volumes, runId) && OnlyOwnNetworkGoes(w.networks, v.networks, runId)
  }

  /** The anonymous volumes of removed containers are among the names. */
  ghost predicate Remembers(before: map<string, Container>, after: map<string, Container>, names: set<string>) {
    forall id, m :: id in before && id !in after && m in AnonymousMounts(before[id], before[id].mounts) ==> m.name in names
  }

  /**
   The removals issued since name exactly the containers of the run, and ask for `-v` exactly where the
   container may go with its volumes, so that exactly the volumes that may go are asked for.
   */
  ghost predicate RemovalsExact(containers: map<string, Container>, runId: string, before: seq<Removal>, after: seq<Removal>) {
    && before <= after
    && (UniqueNames(containers) ==>
          forall id :: (exists i :: |before| <= i < |after| && after[i].id == id) <==> id in containers && OwnedByRun(containers[id], runId))
    && (UniqueNames(containers) && IdsDistinguishable(containers) ==>
          && (forall i :: |before| <= i < |after| ==>
                after[i].id in containers && (after[i].withVolumes <==> Droppable(containers, runId, after[i].id)))
          && forall volume :: DropRequested(containers, after[|before|..], volume) <==> MayDrop(containers, runId, volume))
  }

  /** All containers of the run are gone, and no other one. */
  ghost predicate ContainersExact(before: map<string, Container>, after: map<string, Container>, runId: string) {
    UniqueNames(before) ==>
      && (forall id :: id in after <==> id in before && !OwnedByRun(before[id], runId))
      && forall id :: id in after ==> after[id] == before[id]
  }

  /** Only containers of the run use any of the volumes. */
  ghost predicate UsedInside(containers: map<string, Container>, runId: string, names: set<string>) {
    forall n, user :: n in names && user in UsersOf(containers, n) ==> OwnedByRun(containers[user], runId)
  }

  /** The image-created volumes of the run's containers. */
  ghost function OwnVolumes(containers: map<string, Container>, runId: string): set<string> {
    set id, m | id in containers && OwnedByRun(containers[id], runId)
                && m in AnonymousMounts(containers[id], containers[id].mounts) :: m.name
  }

  /** The volumes that a call knows of: those of its containers, and those of earlier calls. */
  ghost function KnownVolumes(w: World, runId: string, persist: bool): set<string> {
    OwnVolumes(w.containers, runId) + if persist then RecordedNames(w.file, runId) else {}
  }

  /**
   Nothing stands in the way of the cleanup: the earlier receipt is usable, whatever has a name of the run has
   its labels, its containers mount image-created volumes only, and nobody else uses a volume it knows of.
   */
  ghost predicate Unobjectionable(w: World, runId: string, persist: bool) {
    && (persist ==> ReceiptUsable(w.file, runId))
    && NamesFine(w.containers, runId)
    && UsedInside(w.containers, runId, KnownVolumes(w, runId, persist))
    && forall id :: id in w.networks && w.networks[id].name == NetworkName(runId) ==> RunLabelled(w.networks[id].labels, runId)
  }

  /** What a call without any failure has done and what it reports. */
  ghost predicate FailureFree(w: World, v: World, runId: string, persist: bool, report: Report) {
    && ContainersExact(w.containers, v.containers, runId)
    && (report.complete <==> report.errors == [] && Clean(v.containers, v.networks, v.volumes, runId, Names(report.captured)))
    && (UniqueNames(w.containers) ==> Names(report.captured) == KnownVolumes(w, runId, persist))
    && (UniqueNames(w.containers) && IdsDistinguishable(w.containers) && UniqueNetwork(w.networks, runId) ==>
          (report.errors == [] <==> Unobjectionable(w, runId, persist)))
  }

  ghost predicate CallEffect(w: World, v: World, runId: string, persist: bool, outcome: Outcome) {
    && RemovesOnlyOwned(w, v, runId)
    && (!persist ==> v.file == w.file)
    && (persist ==>
          && RecordedNames(w.file, runId) <= RecordedNames(v.file, runId)
          && Remembers(w.containers, v.containers, RecordedNames(v.file, runId))
          && (outcome.Returned? ==> RecordedNames(v.file, runId) == Names(outcome.report.captured)))
    && (outcome.Returned? && outcome.report.complete ==>
          && outcome.report.errors == []
          && Clean(v.containers, v.networks, v.volumes, runId, Names(outcome.report.captured)))
  }

  lemma VerifiedOwned(containers: map<string, Container>, runId: string, t: Task)
    requires Verified(containers, runId, t)
    ensures OwnedByRun(containers[t.id], runId)
  {
    hide ContainerOwned;
    hide RunNames;
    var i :| 0 <= i < |RunNames(runId)| && RunNames(runId)[i] == t.name;
  }

  lemma UserOwned(containers: map<string, Container>, runId: string, tasks: seq<Task>, ownedIds: set<string>, volume: string, id: string)
    requires IdsDistinguishable(containers)
    requires forall t :: t in tasks ==> Verified(containers, runId, t)
    requires forall o :: o in ownedIds ==> exists t :: t in tasks && t.id == o
    requires UsersListedAsOwned(containers, ownedIds, volume) && id in UsersOf(containers, volume)
    ensures OwnedByRun(containers[id], runId)
  {
    hide SameContainerId;
    hide OwnedByRun;
    hide ContainerOwned;
    hide RunNames;
    hide AnonymousMounts;
    hide UnsafeMounts;
    var o :| o in ownedIds && SameContainerId(o, Abbreviated(id));
    var t :| t in tasks && t.id == o;
    assert Verified(containers, runId, t);
    VerifiedOwned(containers, runId, t);
  }

  /** A task that keeps nothing is a container that may be removed together with its volumes. */
  lemma DroppedMayGo(containers: map<string, Container>, runId: string, tasks: seq<Task>, external: set<string>,
                     captured: seq<Captured>, ownedIds: set<string>, t: Task)
    requires IdsDistinguishable(containers)
    requires forall u :: u in tasks ==> Verified(containers, runId, u) && Covers(captured, u)
    requires forall o :: o in ownedIds ==> exists u :: u in tasks && u.id == o
    requires forall n :: n in Names(captured) && n !in external ==> UsersListedAsOwned(containers, ownedIds, n)
    requires t in tasks && !KeepsVolumes(t, external)
    ensures t.id in containers && Droppable(containers, runId, t.id)
  {
    hide SameContainerId;
    hide OwnedByRun;
    hide ContainerOwned;
    hide RunNames;
    hide AnonymousMounts;
    hide UnsafeMounts;
    hide ImageCreated;
    hide IdsDistinguishable;
    hide UsersListedAsOwned;
    MountsHold(t.container, t.container.mounts);
    VerifiedOwned(containers, runId, t);
    forall volume, user | volume in VolumesOf(t.container) && user in UsersOf(containers, volume)
      ensures OwnedByRun(containers[user], runId)
    {
      var m :| m in t.container.mounts && m.isVolume && m.name == volume;
      assert AnonymousMount(m.name, m.destination) in t.anonymous;
      assert volume in Names(captured) && volume !in external;
      UserOwned(containers, runId, tasks, ownedIds, volume, user);
    }
  }

  /** With every container of the run owned and truthful listings, nothing else is kept. */
  lemma DroppableKeepsNothing(containers: map<string, Container>, runId: string, tasks: seq<Task>, external: set<string>,
                              ownedIds: set<string>, t: Task)
    requires AllTasked(containers, runId, tasks) && forall u :: u in tasks ==> u.id in ownedIds
    requires forall n :: n in external ==> !UsersListedAsOwned(containers, ownedIds, n)
    requires t in tasks && Verified(containers, runId, t) && Droppable(containers, runId, t.id)
    ensures !KeepsVolumes(t, external)
  {
    hide OwnedByRun, ContainerOwned, RunNames, ImageCreated, AnonymousName;
    MountsHold(t.container, t.container.mounts);
    forall m | m in t.anonymous ensures m.name !in external {
      AnonymousIsMounted(t.container, t.container.mounts, m);
      forall user | user in UsersOf(containers, m.name) ensures ListedAsOwned(ownedIds, Abbreviated(user)) {
        assert m.name in VolumesOf(containers[t.id]);
        var u :| u in tasks && u.id == user;
        assert SameContainerId(user, Abbreviated(user));
      }
    }
  }

  lemma {:induction false} AnonymousIsMounted(c: Container, mounts: seq<Mount>, m: AnonymousMount)
    requires m in AnonymousMounts(c, mounts)
    ensures exists n :: n in mounts && n.isVolume && n.name == m.name
  {
    hide ImageCreated;
    if mounts != [] {
      var earlier, last := mounts[..|mounts| - 1], mounts[|mounts| - 1];
      assert mounts == earlier + [last];
      if m in AnonymousMounts(c, earlier) {
        AnonymousIsMounted(c, earlier, m);
        var n :| n in earlier && n.isVolume && n.name == m.name;
        assert n in mounts;
      } else {
        assert last in mounts;
      }
    }
  }

  /** If every reply was there, `-v` is issued for exactly the volumes that may go. */
  lemma RequestsAreExact(containers: map<string, Container>, runId: string, tasks: seq<Task>, external: set<string>,
                         captured: seq<Captured>, ownedIds: set<string>, volume: string)
    requires IdsDistinguishable(containers) && AllTasked(containers, runId, tasks)
    requires forall u :: u in tasks ==> Verified(containers, runId, u) && Covers(captured, u)
    requires forall o :: o in ownedIds <==> exists u :: u in tasks && u.id == o
    requires forall n :: n in Names(captured) && n !in external ==> UsersListedAsOwned(containers, ownedIds, n)
    requires forall n :: n in external ==> !UsersListedAsOwned(containers, ownedIds, n)
    ensures DropRequested(containers, Planned(tasks, external), volume) <==> MayDrop(containers, runId, volume)
  {
    hide IdsDistinguishable, UsersListedAsOwned, Droppable, KeepsVolumes, AnonymousMounts, UnsafeMounts, ContainerOwned, RunNames, OwnedByRun;
    var removals := Planned(tasks, external);
    if i :| 0 <= i < |removals| && removals[i].withVolumes && removals[i].id in containers && volume in VolumesOf(containers[removals[i].id]) {
      DroppedMayGo(containers, runId, tasks, external, captured, ownedIds, tasks[i]);
    }
    if id :| id in containers && volume in VolumesOf(containers[id]) && Droppable(containers, runId, id) {
      DroppableOwned(containers, runId, id);
      var t :| t in tasks && t.id == id;
      DroppableKeepsNothing(containers, runId, tasks, external, ownedIds, t);
      var i :| 0 <= i < |tasks| && tasks[i] == t;
      assert removals[i] == Removal(id, true);
    }
  }

  lemma DroppableOwned(containers: map<string, Container>, runId: string, id: string)
    requires id in containers && Droppable(containers, runId, id)
    ensures OwnedByRun(containers[id], runId)
  {
  }

  lemma RemovalSafe(before: map<string, Container>, volumes: set<string>, after: map<string, Container>, volumesAfter: set<string>,
                    runId: string, tasks: seq<Task>, external: set<string>, captured: seq<Captured>, ownedIds: set<string>)
    requires forall t :: t in tasks ==> Verified(before, runId, t) && Covers(captured, t)
    requires forall o :: o in ownedIds ==> exists t :: t in tasks && t.id == o
    requires forall n :: n in Names(captured) && n !in external ==> UsersListedAsOwned(before, ownedIds, n)
    requires RemovedOnly(before, volumes, after, volumesAfter, tasks, external)
    ensures OnlyOwnedGo(before, volumes, after, volumesAfter, runId) && Remembers(before, after, Names(captured))
  {
    hide OwnedByRun, ContainerOwned, UsersListedAsOwned, MayDrop, KeepsVolumes, IdsDistinguishable, RunNames;
    forall id | id in before && id !in after ensures OwnedByRun(before[id], runId) {
      var t :| t in tasks && t.id == id;
      VerifiedOwned(before, runId, t);
    }
    if IdsDistinguishable(before) {
      forall volume | volume in volumes && volume !in volumesAfter ensures MayDrop(before, runId, volume) {
        var t :| t in tasks && !KeepsVolumes(t, external) && volume in VolumesOf(t.container);
        DroppedMayGo(before, runId, tasks, external, captured, ownedIds, t);
        DroppedOne(before, runId, t, volume);
      }
    }
  }

  lemma DroppedOne(containers: map<string, Container>, runId: string, t: Task, volume: string)
    requires t.id in containers && containers[t.id] == t.container && Droppable(containers, runId, t.id) && volume in VolumesOf(t.container)
    ensures MayDrop(containers, runId, volume)
  {
    hide Droppable;
  }

  /** Looks for outside users of the captured volumes, then removes the verified containers. */
  method RemoveVerified(d: Docker, runId: string, tasks: seq<Task>, captured: seq<Captured>)
    returns (aborted: bool, errors: seq<string>)
    requires forall t :: t in tasks ==> Verified(d.containers, runId, t)
    requires TaskVolumes(tasks) <= Names(captured)
    modifies d`removals, d`failures, d`containers, d`volumes
    ensures d.failures >= old(d.failures)
    ensures OnlyOwnedGo(old(d.containers), old(d.volumes), d.containers, d.volumes, runId)
    ensures Remembers(old(d.containers), d.containers, Names(captured))
    ensures old(d.removals) <= d.removals
    ensures d.failures == old(d.failures) ==> !aborted
    ensures !aborted && errors == [] ==> d.failures == old(d.failures)
    ensures d.failures == old(d.failures) && (UniqueNames(old(d.containers)) ==> AllTasked(old(d.containers), runId, tasks)) ==>
              && RemovalsExact(old(d.containers), runId, old(d.removals), d.removals)
              && ContainersExact(old(d.containers), d.containers, runId)
              && (UniqueNames(old(d.containers)) && IdsDistinguishable(old(d.containers)) ==>
                    (errors == [] <==> UsedInside(old(d.containers), runId, Names(captured))))
  {
    hide *;
    ghost var before, volumes, removals := d.containers, d.volumes, d.removals;
    NothingRemoved(before, volumes, runId, Names(captured));
    AllCovered(tasks, captured);
    var ownedIds := set t | t in tasks :: t.id;
    var external, moreErrors;
    aborted, external, errors := FindExternal(d, captured, ownedIds);
    if aborted {
      return true, errors;
    }
    aborted, moreErrors := RemoveContainers(d, runId, tasks, external);
    errors := errors + moreErrors;
    RemovalSafe(before, volumes, d.containers, d.volumes, runId, tasks, external, captured, ownedIds);
    if d.failures == old(d.failures) && (UniqueNames(before) ==> AllTasked(before, runId, tasks)) {
      assert tasks[..|tasks|] == tasks && d.removals == removals + Planned(tasks, external);
      IssuedAreExact(before, runId, tasks, external, captured, ownedIds, removals);
      TasksAreOwned(before, d.containers, runId, tasks);
      UsersAreExact(before, runId, tasks, external, captured, ownedIds);
    }
  }

  lemma AllCovered(tasks: seq<Task>, captured: seq<Captured>)
    requires TaskVolumes(tasks) <= Names(captured)
    ensures forall t :: t in tasks ==> Covers(captured, t)
  {
    forall t, m | t in tasks && m in t.anonymous ensures m.name in Names(captured) {
      assert m.name in TaskVolumes(tasks);
    }
  }

  /** Removing the tasks' containers is removing the run's. */
  lemma TasksAreOwned(before: map<string, Container>, after: map<string, Container>, runId: string, tasks: seq<Task>)
    requires UniqueNames(before) ==> AllTasked(before, runId, tasks)
    requires forall t :: t in tasks ==> Verified(before, runId, t)
    requires after == before - TaskIds(tasks)
    ensures ContainersExact(before, after, runId)
  {
    hide OwnedByRun, UniqueNames, Verified;
    forall t | t in tasks ensures t.id in before && OwnedByRun(before[t.id], runId) {
      VerifiedIsOwned(before, runId, t);
    }
  }

  lemma VerifiedIsOwned(containers: map<string, Container>, runId: string, t: Task)
    requires Verified(containers, runId, t)
    ensures t.id in containers && OwnedByRun(containers[t.id], runId)
  {
    VerifiedOwned(containers, runId, t);
  }

  /** The users of a volume are listed as owned exactly when they are the run's. */
  lemma ListedExactly(containers: map<string, Container>, runId: string, tasks: seq<Task>, ownedIds: set<string>, volume: string)
    requires IdsDistinguishable(containers) && AllTasked(containers, runId, tasks)
    requires forall t :: t in tasks ==> Verified(containers, runId, t)
    requires forall o :: o in ownedIds <==> exists t :: t in tasks && t.id == o
    ensures UsersListedAsOwned(containers, ownedIds, volume) <==>
              forall user :: user in UsersOf(containers, volume) ==> OwnedByRun(containers[user], runId)
  {
    hide OwnedByRun, Verified, IdsDistinguishable;
    if UsersListedAsOwned(containers, ownedIds, volume) {
      forall user | user in UsersOf(containers, volume) ensures OwnedByRun(containers[user], runId) {
        UserOwned(containers, runId, tasks, ownedIds, volume, user);
      }
    }
    forall user | user in UsersOf(containers, volume) && OwnedByRun(containers[user], runId)
      ensures ListedAsOwned(ownedIds, Abbreviated(user))
    {
      var t :| t in tasks && t.id == user;
      assert SameContainerId(user, Abbreviated(user));
    }
  }

  lemma UsersAreExact(containers: map<string, Container>, runId: string, tasks: seq<Task>, external: set<string>,
                      captured: seq<Captured>, ownedIds: set<string>)
    requires UniqueNames(containers) ==> AllTasked(containers, runId, tasks)
    requires forall u :: u in tasks ==> Verified(containers, runId, u)
    requires forall o :: o in ownedIds <==> exists u :: u in tasks && u.id == o
    requires forall n :: n in Names(captured) && n !in external ==> UsersListedAsOwned(containers, ownedIds, n)
    requires forall n :: n in external ==> n in Names(captured) && !UsersListedAsOwned(containers, ownedIds, n)
    ensures UniqueNames(containers) && IdsDistinguishable(containers) ==> (external == {} <==> UsedInside(containers, runId, Names(captured)))
  {
    hide UniqueNames, IdsDistinguishable, AllTasked, UsersListedAsOwned, Verified, OwnedByRun, UsersOf;
    if UniqueNames(containers) && IdsDistinguishable(containers) {
      forall n ensures UsersListedAsOwned(containers, ownedIds, n) <==>
                       forall user :: user in UsersOf(containers, n) ==> user in containers && OwnedByRun(containers[user], runId) {
        UsersExist(containers, n);
        ListedExactly(containers, runId, tasks, ownedIds, n);
      }
      if external != {} {
        var n := Inhabitant(external);
        assert n in Names(captured) && !UsersListedAsOwned(containers, ownedIds, n);
        var user :| user in UsersOf(containers, n) && !(user in containers && OwnedByRun(containers[user], runId));
        UsersExist(containers, n);
      } else {
        forall n, user | n in Names(captured) && user in UsersOf(containers, n) ensures OwnedByRun(containers[user], runId) {
          assert UsersListedAsOwned(containers, ownedIds, n);
        }
      }
    }
  }

  lemma UsersExist(containers: map<string, Container>, volume: string)
    ensures forall user :: user in UsersOf(containers, volume) ==> user in containers
  {
  }

  lemma IssuedAreExact(containers: map<string, Container>, runId: string, tasks: seq<Task>, external: set<string>,
                       captured: seq<Captured>, ownedIds: set<string>, removals: seq<Removal>)
    requires UniqueNames(containers) ==> AllTasked(containers, runId, tasks)
    requires forall u :: u in tasks ==> Verified(containers, runId, u) && Covers(captured, u)
    requires forall o :: o in ownedIds <==> exists u :: u in tasks && u.id == o
    requires forall n :: n in Names(captured) && n !in external ==> UsersListedAsOwned(containers, ownedIds, n)
    requires forall n :: n in external ==> !UsersListedAsOwned(containers, ownedIds, n)
    ensures RemovalsExact(containers, runId, removals, removals + Planned(tasks, external))
  {
    hide UniqueNames, IdsDistinguishable, AllTasked, DropRequested, MayDrop, UsersListedAsOwned, Verified, Covers, Planned, Droppable, OwnedByRun;
    var after := removals + Planned(tasks, external);
    assert after[|removals|..] == Planned(tasks, external);
    PlannedAt(tasks, external);
    forall i | |removals| <= i < |after| ensures after[i].id in containers && OwnedByRun(containers[after[i].id], runId) {
      assert after[i] == Planned(tasks, external)[i - |removals|];
      VerifiedIsOwned(containers, runId, tasks[i - |removals|]);
    }
    if UniqueNames(containers) {
      forall id | id in containers && OwnedByRun(containers[id], runId) ensures exists i :: |removals| <= i < |after| && after[i].id == id {
        TaskOf(containers, runId, tasks, id);
        var t :| t in tasks && t.id == id;
        var i :| 0 <= i < |tasks| && tasks[i] == t;
        assert after[|removals| + i].id == id;
      }
    }
    if UniqueNames(containers) && IdsDistinguishable(containers) {
      forall volume ensures DropRequested(containers, after[|removals|..], volume) <==> MayDrop(containers, runId, volume) {
        RequestsAreExact(containers, runId, tasks, external, captured, ownedIds, volume);
      }
      forall i | |removals| <= i < |after| ensures after[i].withVolumes <==> Droppable(containers, runId, after[i].id) {
        assert after[i] == Planned(tasks, external)[i - |removals|];
        KeepsExactly(containers, runId, tasks, external, captured, ownedIds, tasks[i - |removals|]);
      }
    }
  }

  lemma PlannedAt(tasks: seq<Task>, external: set<string>)
    ensures |Planned(tasks, external)| == |tasks|
    ensures forall i :: 0 <= i < |tasks| ==> Planned(tasks, external)[i] == Removal(tasks[i].id, !KeepsVolumes(tasks[i], external))
  {
  }

  lemma TaskOf(containers: map<string, Container>, runId: string, tasks: seq<Task>, id: string)
    requires AllTasked(containers, runId, tasks) && id in containers && OwnedByRun(containers[id], runId)
    ensures exists t :: t in tasks && t.id == id
  {
    hide OwnedByRun;
  }

  /** A task keeps nothing exactly when its container may go with its volumes. */
  lemma KeepsExactly(containers: map<string, Container>, runId: string, tasks: seq<Task>, external: set<string>,
                     captured: seq<Captured>, ownedIds: set<string>, t: Task)
    requires IdsDistinguishable(containers) && AllTasked(containers, runId, tasks)
    requires forall u :: u in tasks ==> Verified(containers, runId, u) && Covers(captured, u)
    requires forall o :: o in ownedIds <==> exists u :: u in tasks && u.id == o
    requires forall n :: n in Names(captured) && n !in external ==> UsersListedAsOwned(containers, ownedIds, n)
    requires forall n :: n in external ==> !UsersListedAsOwned(containers, ownedIds, n)
    requires t in tasks
    ensures t.id in containers && (!KeepsVolumes(t, external) <==> Droppable(containers, runId, t.id))
  {
    hide IdsDistinguishable, UsersListedAsOwned, Droppable, KeepsVolumes, AnonymousMounts, UnsafeMounts, ContainerOwned, RunNames, OwnedByRun, AllTasked;
    if !KeepsVolumes(t, external) {
      DroppedMayGo(containers, runId, tasks, external, captured, ownedIds, t);
    }
    if Droppable(containers, runId, t.id) {
      DroppableKeepsNothing(containers, runId, tasks, external, ownedIds, t);
    }
  }

  lemma NothingRemoved(containers: map<string, Container>, volumes: set<string>, runId: string, names: set<string>)
    ensures OnlyOwnedGo(containers, volumes, containers, volumes, runId) && Remembers(containers, containers, names)
  {
  }

  /**
   One call. Without a failure it removes exactly the run's containers and network, asks `-v` for exactly the
   volumes that may go, and is complete exactly when there was nothing to object to and nothing is left; after
   a failure it is never complete.
   */
  method CleanupTaskDockerResources(d: Docker, store: ReceiptStore, runId: string, persist: bool)
    returns (outcome: Outcome)
    modifies d, store
    ensures d.failures >= old(d.failures)
    ensures old(d.removals) <= d.removals && old(d.networkRemovals) <= d.networkRemovals
    ensures outcome.Rejected? <==> !ValidRunId(runId)
    ensures outcome.Returned? && outcome.report.complete ==> d.failures == old(d.failures)
    ensures outcome.Rejected? ==> d.removals == old(d.removals) && d.networkRemovals == old(d.networkRemovals) && store.file == old(store.file)
    ensures CallEffect(World(old(d.containers), old(d.networks), old(d.volumes), old(store.file)),
                       World(d.containers, d.networks, d.volumes, store.file), runId, persist, outcome)
    ensures d.failures == old(d.failures) && ValidRunId(runId) ==>
              && outcome.Returned?
              && RemovalsExact(old(d.containers), runId, old(d.removals), d.removals)
              && (exists fine :: NetworkHandled(old(d.networks), d.networks, d.networkRemovals[|old(d.networkRemovals)|..], runId, fine))
              && FailureFree(World(old(d.containers), old(d.networks), old(d.volumes), old(store.file)),
                             World(d.containers, d.networks, d.volumes, store.file), runId, persist, outcome.report)
  {
    hide *;
    ghost var w := World(d.containers, d.networks, d.volumes, store.file);
    NoEffect(w, runId, persist);
    if !ValidRunId(runId) {
      return Rejected;
    }
    var file := if persist then store.file else Absent;
    var loaded, loadErrors := LoadPrevious(file, runId);
    var aborted, rows, tasks, captured, inspectErrors := InspectRoles(d, runId, persist, loaded);
    if aborted {
      return Aborted;
    }
    if persist {
      store.file := AsDocument(runId, captured);
    }
    var errors := loadErrors + inspectErrors;
    var moreErrors;
    aborted, moreErrors := RemoveVerified(d, runId, tasks, captured);
    NetworksUntouched(w.networks, runId);
    EffectHolds(w, World(d.containers, d.networks, d.volumes, store.file), runId, persist, Aborted, captured);
    if aborted {
      return Aborted;
    }
    ghost var usersErrors := moreErrors;
    errors := errors + moreErrors;
    aborted, moreErrors := RemoveRunNetwork(d, runId);
    EffectHolds(w, World(d.containers, d.networks, d.volumes, store.file), runId, persist, Aborted, captured);
    if aborted {
      return Aborted;
    }
    ghost var networkErrors := moreErrors;
    errors := errors + moreErrors;
    var left;
    left, moreErrors := LookAgain(d, runId, rows, captured);
    errors := errors + moreErrors;
    if persist {
      store.file := AsDocument(runId, captured);
    }
    var report := Report(errors == [] && left.Nothing(), captured, left, errors);
    outcome := Returned(report);
    ghost var v := World(d.containers, d.networks, d.volumes, store.file);
    EffectHolds(w, v, runId, persist, outcome, captured);
    if d.failures == old(d.failures) {
      assert errors == [] <==> loadErrors == [] && inspectErrors == [] && usersErrors == [] && networkErrors == [];
      NothingFailed(w, v, runId, persist, report, tasks, d.networkRemovals[|old(d.networkRemovals)|..],
                    loadErrors == [], inspectErrors == [], usersErrors == [], networkErrors == []);
    }
  }

  lemma NoEffect(w: World, runId: string, persist: bool)
    ensures CallEffect(w, w, runId, persist, Rejected) && CallEffect(w, w, runId, persist, Aborted)
  {
    hide AnonymousMounts, RecordedNames, OwnedByRun, MayDrop, NetworkOwned, IdsDistinguishable;
  }

  lemma NetworksUntouched(networks: map<string, Network>, runId: string)
    ensures OnlyOwnNetworkGoes(networks, networks, runId)
  {
  }

  lemma EffectHolds(w: World, v: World, runId: string, persist: bool, outcome: Outcome, captured: seq<Captured>)
    requires OnlyOwnedGo(w.containers, w.volumes, v.containers, v.volumes, runId) && OnlyOwnNetworkGoes(w.networks, v.networks, runId)
    requires Remembers(w.containers, v.containers, Names(captured)) && AllAnonymous(captured)
    requires RecordedNames(if persist then w.file else Absent, runId) <= Names(captured)
    requires v.file == if persist then AsDocument(runId, captured) else w.file
    requires outcome.Returned? ==> outcome.report.captured == captured
    requires outcome.Returned? && outcome.report.complete ==>
               outcome.report.errors == [] && Clean(v.containers, v.networks, v.volumes, runId, Names(captured))
    ensures CallEffect(w, v, runId, persist, outcome)
  {
    hide OnlyOwnedGo, OnlyOwnNetworkGoes, Remembers, Clean, AllAnonymous, RecordedNames, AsDocument, Names;
    PersistedNames(runId, captured);
  }

  /** The parts of a call without a failure, put together. */
  lemma NothingFailed(w: World, v: World, runId: string, persist: bool, report: Report, tasks: seq<Task>, issued: seq<string>,
                      loaded: bool, inspected: bool, used: bool, networkFine: bool)
    requires loaded <==> ReceiptUsable(if persist then w.file else Absent, runId)
    requires Names(report.captured) == RecordedNames(if persist then w.file else Absent, runId) + TaskVolumes(tasks)
    requires forall t :: t in tasks ==> Verified(w.containers, runId, t)
    requires UniqueNames(w.containers) ==> AllTasked(w.containers, runId, tasks) && (inspected <==> NamesFine(w.containers, runId))
    requires ContainersExact(w.containers, v.containers, runId)
    requires UniqueNames(w.containers) && IdsDistinguishable(w.containers) ==> (used <==> UsedInside(w.containers, runId, Names(report.captured)))
    requires NetworkHandled(w.networks, v.networks, issued, runId, networkFine)
    requires report.errors == [] <==> loaded && inspected && used && networkFine
    requires report.complete <==> report.errors == [] && Clean(v.containers, v.networks, v.volumes, runId, Names(report.captured))
    ensures FailureFree(w, v, runId, persist, report)
  {
    hide Verified, AllTasked, UniqueNames, IdsDistinguishable, NamesFine, UsedInside, Clean, ContainersExact, TaskVolumes, OwnVolumes,
         NetworkHandled, UniqueNetwork, AnonymousName, RunLabelled, NetworkName;
    if UniqueNames(w.containers) {
      VolumesOfTasks(w.containers, runId, tasks);
      KnownExactly(w, runId, persist);
    }
    hide RecordedNames, KnownVolumes;
    if UniqueNetwork(w.networks, runId) {
      NetworkFineExactly(w.networks, v.networks, issued, runId, networkFine);
    }
  }

  lemma KnownExactly(w: World, runId: string, persist: bool)
    ensures KnownVolumes(w, runId, persist) == RecordedNames(if persist then w.file else Absent, runId) + OwnVolumes(w.containers, runId)
  {
    hide OwnVolumes, ValidVolume;
  }

  lemma VolumesOfTasks(containers: map<string, Container>, runId: string, tasks: seq<Task>)
    requires AllTasked(containers, runId, tasks) && forall t :: t in tasks ==> Verified(containers, runId, t)
    ensures TaskVolumes(tasks) == OwnVolumes(containers, runId)
  {
    hide OwnedByRun, AnonymousMounts, UnsafeMounts, ContainerOwned, RunNames;
    forall n | n in TaskVolumes(tasks) ensures n in OwnVolumes(containers, runId) {
      var t, m :| t in tasks && m in t.anonymous && m.name == n;
      VerifiedIsOwned(containers, runId, t);
      assert m in AnonymousMounts(containers[t.id], containers[t.id].mounts);
    }
    forall n | n in OwnVolumes(containers, runId) ensures n in TaskVolumes(tasks) {
      var id, m :| id in containers && OwnedByRun(containers[id], runId) && m in AnonymousMounts(containers[id], containers[id].mounts) && m.name == n;
      var t :| t in tasks && t.id == id;
      assert m in t.anonymous;
    }
  }

  /** With a name of its own, the run's network is fine exactly when whatever has that name has the labels. */
  lemma NetworkFineExactly(before: map<string, Network>, after: map<string, Network>, issued: seq<string>, runId: string, fine: bool)
    requires UniqueNetwork(before, runId) && NetworkHandled(before, after, issued, runId, fine)
    ensures fine <==> forall id :: id in before && before[id].name == NetworkName(runId) ==> RunLabelled(before[id].labels, runId)
  {
    hide NetworkName, RunLabelled;
  }

  /** With a name of its own, the network of the run is removed, alone, and left alone without the labels. */
  lemma NetworkRemovedExactly(before: map<string, Network>, after: map<string, Network>, issued: seq<string>, runId: string, fine: bool, id: string)
    requires UniqueNetwork(before, runId) && NetworkHandled(before, after, issued, runId, fine) && id in before
    ensures issued == [id] <==> NetworkOwned(before[id], runId)
    ensures id !in after <==> NetworkOwned(before[id], runId)
  {
    hide NetworkName, RunLabelled;
  }

  lemma HexDigits(name: string)
    ensures AnonymousName(name) <==> |name| == 64 && forall i :: 0 <= i < 64 ==> name[i] in "0123456789abcdef"
  {
    forall c: char ensures HexDigit(c) <==> c in "0123456789abcdef" {
    }
  }

  /**
   A volume that may go is anonymous, the container it goes with mounts only image-created volumes at
   destinations nobody asked for, and no container outside the run mounts it.
   */
  lemma DroppedVolumesAreUnclaimed(containers: map<string, Container>, runId: string, volume: string)
    requires MayDrop(containers, runId, volume)
    ensures |volume| == 64 && forall i :: 0 <= i < 64 ==> volume[i] in "0123456789abcdef"
    ensures exists id, m :: id in containers && OwnedByRun(containers[id], runId)
              && m in containers[id].mounts && m.isVolume && m.name == volume
              && m.destination in containers[id].declaredVolumes
              && m.destination !in ExplicitDestinations(containers[id])
    ensures forall id :: id in containers && !OwnedByRun(containers[id], runId) ==> volume !in VolumesOf(containers[id])
  {
    HexDigits(volume);
    hide OwnedByRun;
    hide AnonymousName;
    hide ExplicitDestinations;
    var id :| id in containers && volume in VolumesOf(containers[id]) && Droppable(containers, runId, id);
    MountsHold(containers[id], containers[id].mounts);
    var m :| m in containers[id].mounts && m.isVolume && m.name == volume;
    forall other | other in containers && !OwnedByRun(containers[other], runId)
      ensures volume !in VolumesOf(containers[other])
    {
      assert volume in VolumesOf(containers[other]) ==> other in UsersOf(containers, volume);
    }
  }

  // ----- repeated calls -----

  datatype Call = Call(before: World, after: World, outcome: Outcome)

  /** Calls of one run; anything may happen to Docker between them, but the receipt file stays. */
  ghost predicate IsRun(calls: seq<Call>, runId: string) {
    && (forall i :: 0 <= i < |calls| ==> CallEffect(calls[i].before, calls[i].after, runId, true, calls[i].outcome))
    && (forall i {:trigger calls[i + 1]} :: 0 <= i < |calls| - 1 ==> calls[i + 1].before.file == calls[i].after.file)
  }

  /** The captured volumes never shrink from call to call. */
  lemma {:induction false} CapturedNeverShrinks(calls: seq<Call>, runId: string, i: nat, j: nat)
    requires IsRun(calls, runId) && i <= j < |calls|
    ensures RecordedNames(calls[i].after.file, runId) <= RecordedNames(calls[j].after.file, runId)
    decreases j - i
  {
    hide RecordedNames;
    hide RemovesOnlyOwned;
    hide Remembers;
    hide Clean;
    if i < j {
      CapturedNeverShrinks(calls, runId, i + 1, j);
      assert calls[i + 1].before.file == calls[i].after.file;
    }
  }

  /**
   A completed call leaves nothing of the run behind: not the volumes captured by any earlier call, and
   not the anonymous volumes of any container that an earlier call removed.
   */
  lemma CompletionLeavesNothing(calls: seq<Call>, runId: string, i: nat, j: nat)
    requires IsRun(calls, runId) && i <= j < |calls|
    requires calls[j].outcome.Returned? && calls[j].outcome.report.complete
    ensures var last := calls[j].after;
            && Clean(last.containers, last.networks, last.volumes, runId, RecordedNames(last.file, runId))
            && RecordedNames(calls[i].after.file, runId) !! last.volumes
            && (calls[i].outcome.Returned? ==> Names(calls[i].outcome.report.captured) !! last.volumes)
            && forall id, m :: id in calls[i].before.containers && id !in calls[i].after.containers
                 && m in AnonymousMounts(calls[i].before.containers[id], calls[i].before.containers[id].mounts)
                 ==> m.name !in last.volumes
  {
    hide RecordedNames;
    hide RemovesOnlyOwned;
    hide AnonymousMounts;
    CapturedNeverShrinks(calls, runId, i, j);
  }

  // ----- a volume that one run container asked for and another got anonymously -----

  /** A container of the run asks for the volume itself, by name or by bind. */
  ghost predicate Requests(c: Container, volume: string) {
    exists m :: m in c.mounts && m.isVolume && m.name == volume && m.destination in ExplicitDestinations(c)
  }

  /** The two containers of the counterexample: both mount the volume, only the one removed first asks for it. */
  function Creator(runId: string, volume: string): Container {
    Container(RunNames(runId)[1], map[TASK_LABEL := TASK_VALUE, RUN_LABEL := runId], {"/data"}, [], [], false,
              [Mount(true, volume, "/data")])
  }

  function Asker(runId: string, volume: string): Container {
    Creator(runId, volume).(name := RunNames(runId)[0], hostMounts := [HostMount(true, "/data")])
  }

  lemma PairOwned(runId: string, volume: string)
    ensures OwnedByRun(Creator(runId, volume), runId) && ContainerOwned(Creator(runId, volume), RunNames(runId)[1], runId)
    ensures OwnedByRun(Asker(runId, volume), runId) && ContainerOwned(Asker(runId, volume), RunNames(runId)[0], runId)
    ensures StripSlashes(Creator(runId, volume).name) != StripSlashes(Asker(runId, volume).name)
  {
    hide StripSlashes;
    assert TASK_LABEL != RUN_LABEL;
    NoSlash(RunNames(runId)[0]);
    NoSlash(RunNames(runId)[1]);
    NamesDiffer(runId);
    assert ContainerOwned(Creator(runId, volume), RunNames(runId)[1], runId);
    assert ContainerOwned(Asker(runId, volume), RunNames(runId)[0], runId);
  }

  lemma NoSlash(name: string)
    requires name != "" && name[0] != '/'
    ensures StripSlashes(name) == name
  {
  }

  lemma PairMounts(runId: string, volume: string)
    requires AnonymousName(volume)
    ensures VolumesOf(Creator(runId, volume)) == {volume} == VolumesOf(Asker(runId, volume))
    ensures UnsafeMounts(Creator(runId, volume), Creator(runId, volume).mounts) == []
    ensures Requests(Asker(runId, volume), volume)
  {
    hide RunNames, AnonymousName;
    var creator, asker := Creator(runId, volume), Asker(runId, volume);
    var m := Mount(true, volume, "/data");
    assert m in creator.mounts && m in asker.mounts;
    assert ImageCreated(creator, m);
    MountsHold(creator, creator.mounts);
    assert HostMount(true, "/data") in asker.hostMounts && "/data" in ExplicitDestinations(asker);
  }

  /**
   Being mounted explicitly by another container of the same run does not protect a volume: here are the
   containers, with unique names and unambiguous IDs, and the task whose removal is issued with `-v`. The
   container that asks for the volume is first in the order of removal, so that by then nothing uses it.
   */
  lemma ExplicitMountElsewhereDoesNotProtect(runId: string, volume: string) returns (containers: map<string, Container>, asker: string, t: Task)
    requires AnonymousName(volume)
    ensures UniqueNames(containers) && IdsDistinguishable(containers) && containers.Keys == {asker, t.id} && asker != t.id
    ensures ContainerOwned(containers[asker], RunNames(runId)[0], runId) && Requests(containers[asker], volume)
    ensures Verified(containers, runId, t) && t.name == RunNames(runId)[1] && volume in VolumesOf(t.container)
    ensures UsersListedAsOwned(containers, containers.Keys, volume) && !KeepsVolumes(t, {})
    ensures Droppable(containers, runId, t.id) && MayDrop(containers, runId, volume)
  {
    hide RunNames, OwnedByRun, ContainerOwned, AnonymousName, UnsafeMounts, AnonymousMounts, Requests, Creator, Asker, StripSlashes;
    PairOwned(runId, volume);
    PairMounts(runId, volume);
    NamesDiffer(runId);
    var creator := Creator(runId, volume);
    asker := "asker";
    containers := map[asker := Asker(runId, volume), "creator" := creator];
    t := Task("creator", RunNames(runId)[1], creator, AnonymousMounts(creator, creator.mounts), []);
    assert asker in containers && "creator" in containers && asker[0] != "creator"[0];
    assert Abbreviated("creator") == "creator" && Abbreviated("asker") == "asker";
    assert Droppable(containers, runId, "creator");
  }

  lemma NamesDiffer(runId: string)
    ensures |RunNames(runId)| > 1 && RunNames(runId)[0] != RunNames(runId)[1]
    ensures RunNames(runId)[0] in RunNames(runId) && RunNames(runId)[1] in RunNames(runId)
    ensures RunNames(runId)[0] != "" && RunNames(runId)[0][0] != '/' && RunNames(runId)[1] != "" && RunNames(runId)[1][0] != '/'
  {
    assert RunNames(runId)[0][7] == 's' && RunNames(runId)[1][7] == 'k';
  }

  /** One run container asks for a volume, and another one that may be removed with its volumes mounts it too. */
  ghost predicate SharedRequest(containers: map<string, Container>, runId: string, asker: string, other: string, volume: string) {
    && asker in containers && OwnedByRun(containers[asker], runId) && Requests(containers[asker], volume)
    && other in containers && other != asker && volume in VolumesOf(containers[other]) && Droppable(containers, runId, other)
  }

  /** No volume that a run container asks for may go exactly when no such sharing exists. */
  lemma RequestedVolumesProtectedExactly(containers: map<string, Container>, runId: string, volume: string, asker: string)
    requires asker in containers && OwnedByRun(containers[asker], runId) && Requests(containers[asker], volume)
    ensures !MayDrop(containers, runId, volume) <==> !exists other :: SharedRequest(containers, runId, asker, other, volume)
  {
    hide OwnedByRun, AnonymousMounts, UnsafeMounts, ExplicitDestinations, ImageCreated, Requests;
    if MayDrop(containers, runId, volume) {
      var id :| id in containers && volume in VolumesOf(containers[id]) && Droppable(containers, runId, id);
      SafeDoesNotRequest(containers[id], volume);
      assert SharedRequest(containers, runId, asker, id, volume);
    }
  }

  lemma SafeDoesNotRequest(c: Container, volume: string)
    requires UnsafeMounts(c, c.mounts) == []
    ensures !Requests(c, volume)
  {
    MountsHold(c, c.mounts);
  }
}
