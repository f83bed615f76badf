/** The resumable executor: platform, then six Jobs, and a progress receipt (scripts/k8s/pipeline.py). */
module PipelineExecutor {
  import opened Wrappers
  import opened Collections
  import opened Ownership
  import B3 = PipelineReceipt

  /** The progress receipt.  A write that stops halfway leaves a file that is no JSON document. */
  datatype ReceiptFile = NoReceipt | Unreadable | Receipt(runId: string, completedSteps: Option<seq<string>>)

  /** What a command of an attempt is meant to reach. */
  datatype Milestone =
    | PlatformApplied
    | PoliciesApplied
    | ClaimBound(claim: string)
    | RolledOut(name: string)
    | HdfsReady
    | JobApplied(step: string)
    | InputStaged
    | JobCompleted(step: string)

  /** A command with the namespace it was issued in and its result, or a progress receipt. */
  datatype Action =
    | Command(what: Milestone, before: map<Key, Labels>, ok: bool)
    | Recorded(phases: seq<string>)

  const PHASES: seq<string> := ["platform"] + B3.STEPS

  const CLAIM_NAMES: seq<string> := [
    "it4931-hdfs-namenode", "it4931-hdfs-datanode", "it4931-kafka-data", "it4931-pipeline-data", "it4931-pipeline-checkpoints"]

  const WORKLOAD_NAMES: seq<string> := ["hdfs-namenode", "hdfs-datanode", "kafka"]

  /** Refused before anything was applied, stopped by a failure or a crash, or finished. */
  datatype Outcome = NotStarted | Interrupted | Finished

  // ----- what a history of actions may look like -----

  function Claims(n: nat): seq<Milestone>
    requires n <= |CLAIM_NAMES|
  {
    seq(n, i requires 0 <= i < n => ClaimBound(CLAIM_NAMES[i]))
  }

  function Rollouts(n: nat): seq<Milestone>
    requires n <= |WORKLOAD_NAMES|
  {
    seq(n, i requires 0 <= i < n => RolledOut(WORKLOAD_NAMES[i]))
  }

  /** What must be reached, in this order, before a phase counts as completed. */
  function Route(full: bool, phase: string): seq<Milestone> {
    if phase == PHASES[0] then
      [PlatformApplied, PoliciesApplied] + Claims(|CLAIM_NAMES|) + Rollouts(|WORKLOAD_NAMES|) + [HdfsReady]
    else
      [JobApplied(phase)] + (if full && phase == "input" then [InputStaged] else []) + [JobCompleted(phase)]
  }

  /** Successful commands for these milestones occur in this order. */
  ghost predicate Reached(trace: seq<Action>, goals: seq<Milestone>)
    decreases |goals|
  {
    goals == [] ||
    exists j :: 0 <= j < |trace| && trace[j].Command? && trace[j].ok && trace[j].what == goals[|goals| - 1]
                && Reached(trace[..j], goals[..|goals| - 1])
  }

  ghost predicate HasCompleted(full: bool, trace: seq<Action>, phase: string) {
    Reached(trace, Route(full, phase))
  }

  ghost predicate HasRecorded(trace: seq<Action>, phase: string) {
    exists i :: 0 <= i < |trace| && trace[i].Recorded? && phase in trace[i].phases
  }

  ghost predicate AllCompleted(full: bool, trace: seq<Action>, phases: seq<string>) {
    forall i :: 0 <= i < |phases| ==> HasCompleted(full, trace, phases[i])
  }

  /** What must hold of the namespace, and must already have happened, when a command is issued. */
  ghost predicate MayIssue(run: RunIdentity, full: bool, what: Milestone, objects: map<Key, Labels>, before: seq<Action>) {
    match what
    case PlatformApplied => Clear(run, objects) && !HasRecorded(before, PHASES[0])
    case PoliciesApplied => Reached(before, [PlatformApplied]) && !HasRecorded(before, PHASES[0])
    case JobApplied(step) =>
      && !HasRecorded(before, step)
      && exists n :: 1 <= n < |PHASES| && PHASES[n] == step && AllCompleted(full, before, PHASES[..n])
    case _ => true
  }

  ghost predicate Permitted(run: RunIdentity, full: bool, action: Action, before: seq<Action>) {
    match action
    case Command(what, objects, _) => MayIssue(run, full, what, objects, before)
    case Recorded(phases) => phases <= PHASES && AllCompleted(full, before, phases)
  }

  ghost predicate SafeTrace(run: RunIdentity, full: bool, trace: seq<Action>) {
    forall i :: 0 <= i < |trace| ==> Permitted(run, full, trace[i], trace[..i])
  }

  /** The commands of a history, in the order in which they were issued. */
  ghost function Issued(trace: seq<Action>): seq<Milestone> {
    if trace == [] then []
    else Issued(trace[..|trace| - 1]) + match trace[|trace| - 1] { case Command(what, _, _) => [what] case Recorded(_) => [] }
  }

  lemma IssuedOneMore(trace: seq<Action>, action: Action)
    ensures Issued(trace + [action]) == Issued(trace) + if action.Command? then [action.what] else []
  {
    assert (trace + [action])[..|trace|] == trace;
  }

  /** The routes of the phases from the n-th to the last, one after the other. */
  ghost function Remaining(full: bool, n: nat): seq<Milestone>
    requires n <= |PHASES|
    decreases |PHASES| - n
  {
    if n == |PHASES| then [] else Route(full, PHASES[n]) + Remaining(full, n + 1)
  }

  /** The routes of the phases from the n-th up to the m-th. */
  ghost function Between(full: bool, n: nat, m: nat): seq<Milestone>
    requires n <= m <= |PHASES|
  {
    if n == m then [] else Between(full, n, m - 1) + Route(full, PHASES[m - 1])
  }

  lemma {:induction false} AllBetween(full: bool, n: nat, m: nat)
    requires n <= m <= |PHASES|
    ensures Remaining(full, n) == Between(full, n, m) + Remaining(full, m)
    ensures m == |PHASES| ==> Remaining(full, n) == Between(full, n, m)
    decreases m - n
  {
    hide PHASES, Route;
    if n < m {
      AllBetween(full, n, m - 1);
    }
  }

  /** The phases that a readable receipt lists. */
  ghost function PhasesOn(file: ReceiptFile): seq<string> {
    match file
    case Receipt(_, Some(steps)) => steps
    case _ => []
  }

  ghost predicate EndsInFailedWait(trace: seq<Action>) {
    trace != [] && trace[|trace| - 1].Command? && trace[|trace| - 1].what.JobCompleted? && !trace[|trace| - 1].ok
  }

  /** The steps whose Jobs are applied, in order. */
  ghost function JobsApplied(commands: seq<Milestone>): seq<string> {
    if commands == [] then []
    else match commands[0] {
      case JobApplied(step) => [step] + JobsApplied(commands[1..])
      case _ => JobsApplied(commands[1..])
    }
  }

  /** So far the first i milestones of the route were asked for, after what came before. */
  ghost predicate Sent(trace: seq<Action>, base: seq<Milestone>, goals: seq<Milestone>, i: nat)
    requires i <= |goals|
  {
    Issued(trace) == base + goals[..i]
  }

  lemma AllSent(trace: seq<Action>, base: seq<Milestone>, goals: seq<Milestone>)
    requires Sent(trace, base, goals, |goals|)
    ensures Issued(trace) == base + goals
  {
    assert goals[..|goals|] == goals;
  }

  lemma SentOneMore(trace: seq<Action>, action: Action, base: seq<Milestone>, goals: seq<Milestone>, i: nat)
    requires i < |goals| && Sent(trace, base, goals, i) && action.Command? && action.what == goals[i]
    ensures Sent(trace + [action], base, goals, i + 1)
  {
    IssuedOneMore(trace, action);
    assert goals[..i + 1] == goals[..i] + [goals[i]];
  }

  /** The commands issued meanwhile are the first ones of the list, and all of them when nothing failed. */
  ghost predicate Pursued(before: seq<Action>, after: seq<Action>, goals: seq<Milestone>, done: bool) {
    && Issued(before) <= Issued(after) <= Issued(before) + goals
    && (done ==> Issued(after) == Issued(before) + goals)
  }

  lemma PursuedSoFar(before: seq<Action>, after: seq<Action>, goals: seq<Milestone>, i: nat, done: bool)
    requires i <= |goals| && Sent(after, Issued(before), goals, i) && (done ==> i == |goals|)
    ensures Pursued(before, after, goals, done)
  {
    assert goals == goals[..i] + goals[i..];
    assert done ==> goals[..i] == goals;
  }

  lemma PursuedThen(before: seq<Action>, between: seq<Action>, after: seq<Action>, first: seq<Milestone>, second: seq<Milestone>, done: bool)
    requires Pursued(before, between, first, true) && Pursued(between, after, second, done)
    ensures Pursued(before, after, first + second, done)
  {
    assert Issued(before) + first + second == Issued(before) + (first + second);
  }

  /** A phase that stops leaves the commands a beginning of what the remaining phases call for. */
  lemma Stopped(full: bool, before: seq<Action>, between: seq<Action>, after: seq<Action>, n: nat, i: nat)
    requires n <= i < |PHASES| && Pursued(before, between, Between(full, n, i), true) && Pursued(between, after, Route(full, PHASES[i]), false)
    ensures Pursued(before, after, Remaining(full, n), false)
  {
    hide PHASES, Route, Pursued;
    PursuedThen(before, between, after, Between(full, n, i), Route(full, PHASES[i]), false);
    AllBetween(full, n, i + 1);
    PursuedLess(before, after, Between(full, n, i + 1), Remaining(full, i + 1));
  }

  lemma PursuedLess(before: seq<Action>, after: seq<Action>, first: seq<Milestone>, second: seq<Milestone>)
    requires Pursued(before, after, first, false)
    ensures Pursued(before, after, first + second, false)
  {
    assert Issued(before) + (first + second) == Issued(before) + first + second;
  }

  lemma {:induction false} ReachedStays(trace: seq<Action>, action: Action, goals: seq<Milestone>)
    requires Reached(trace, goals)
    ensures Reached(trace + [action], goals)
  {
    if goals != [] {
      var j :| 0 <= j < |trace| && trace[j].Command? && trace[j].ok && trace[j].what == goals[|goals| - 1]
               && Reached(trace[..j], goals[..|goals| - 1]);
      assert (trace + [action])[..j] == trace[..j] && (trace + [action])[j] == trace[j];
    }
  }

  /** A successful command reaches one more milestone. */
  lemma ReachedOneMore(trace: seq<Action>, action: Action, goals: seq<Milestone>, n: nat)
    requires n < |goals| && Reached(trace, goals[..n]) && action.Command? && action.ok && action.what == goals[n]
    ensures Reached(trace + [action], goals[..n + 1])
  {
    var longer, next := trace + [action], goals[..n + 1];
    assert next[..n] == goals[..n] && next[n] == goals[n];
    assert longer[..|trace|] == trace && longer[|trace|] == action;
  }

  lemma SafeWithOneMore(run: RunIdentity, full: bool, trace: seq<Action>, action: Action)
    requires SafeTrace(run, full, trace) && Permitted(run, full, action, trace)
    ensures SafeTrace(run, full, trace + [action])
  {
    hide Permitted;
    var longer := trace + [action];
    forall i | 0 <= i < |longer| ensures Permitted(run, full, longer[i], longer[..i]) {
      if i < |trace| {
        assert longer[..i] == trace[..i];
      } else {
        assert longer[..i] == trace;
      }
    }
  }

  lemma CompletedStays(full: bool, trace: seq<Action>, action: Action, phases: seq<string>)
    requires AllCompleted(full, trace, phases)
    ensures AllCompleted(full, trace + [action], phases)
  {
    hide Route;
    forall i | 0 <= i < |phases| ensures HasCompleted(full, trace + [action], phases[i]) {
      assert HasCompleted(full, trace, phases[i]);
      ReachedStays(trace, action, Route(full, phases[i]));
    }
  }

  lemma CompletedOneMore(full: bool, trace: seq<Action>, n: nat)
    requires n < |PHASES| && AllCompleted(full, trace, PHASES[..n]) && HasCompleted(full, trace, PHASES[n])
    ensures AllCompleted(full, trace, PHASES[..n + 1])
  {
    hide PHASES, HasCompleted;
    var phases := PHASES[..n + 1];
    forall i | 0 <= i < |phases| ensures HasCompleted(full, trace, phases[i]) {
      if i < n {
        assert phases[i] == PHASES[..n][i];
      }
    }
  }

  lemma RecordedOneMore(trace: seq<Action>, action: Action, phase: string)
    ensures HasRecorded(trace + [action], phase) <==> HasRecorded(trace, phase) || (action.Recorded? && phase in action.phases)
  {
    var longer := trace + [action];
    if HasRecorded(trace, phase) {
      var i :| 0 <= i < |trace| && trace[i].Recorded? && phase in trace[i].phases;
      assert longer[i] == trace[i];
    }
    if action.Recorded? && phase in action.phases {
      assert longer[|trace|] == action;
    }
  }

  // ----- the run namespace -----

  predicate PipelineLabelled(labels: Labels, runId: string) {
    && LabelIs(labels, "it4931.instacart.edu/owner", "instacart-market-basket-analysis")
    && LabelIs(labels, "it4931.instacart.edu/run-id", runId)
    && LabelIs(labels, "it4931.instacart.edu/component", "pipeline")
  }

  function ReservedNames(run: RunIdentity): set<Key> {
    B3.ExpectedDirect(run) + {(Pod, "hdfs-namenode-0"), (Pod, "hdfs-datanode-0"), (Pod, "kafka-0")}
  }

  const LISTED_KINDS: seq<Kind> :=
    [ConfigMap, ServiceAccount, Service, PersistentVolumeClaim, StatefulSet, NetworkPolicy, Job, Pod]

  /** The objects of the namespace that belong to the pipeline, by name or by label. */
  function PipelineObjects(run: RunIdentity, objects: map<Key, Labels>, kinds: seq<Kind>): set<Key> {
    set k | k in objects && k.0 in kinds && (k in ReservedNames(run) || PipelineLabelled(objects[k], run.runId))
  }

  ghost predicate Clear(run: RunIdentity, objects: map<Key, Labels>) {
    PipelineObjects(run, objects, LISTED_KINDS) == {}
  }

  /** One of the objects that applying the platform creates. */
  const PLATFORM_MARK: Key := (ConfigMap, "it4931-pipeline-config")

  function PipelineLabels(run: RunIdentity): Labels {
    run.RunLabels() + map["it4931.instacart.edu/component" := "pipeline"]
  }

  function PolicyManifest(run: RunIdentity): map<Key, Labels> {
    map k | k in B3.DIRECT_OBJECTS && k.0.NetworkPolicy? :: PipelineLabels(run)
  }

  function PlatformManifest(run: RunIdentity): map<Key, Labels> {
    map k | k in B3.DIRECT_OBJECTS && !k.0.NetworkPolicy? :: PipelineLabels(run)
  }

  function JobManifest(run: RunIdentity, step: string): map<Key, Labels> {
    map[(Job, JobName(step, run.runId)) := PipelineLabels(run)]
  }

  lemma PlatformMarked(run: RunIdentity)
    ensures PLATFORM_MARK in PlatformManifest(run)
  {
    assert PLATFORM_MARK in B3.DIRECT_OBJECTS;
  }

  lemma MarkedNotClear(run: RunIdentity, objects: map<Key, Labels>)
    requires PLATFORM_MARK in objects
    ensures !Clear(run, objects)
  {
    assert LISTED_KINDS[0] == ConfigMap && ConfigMap in LISTED_KINDS;
    assert PLATFORM_MARK in B3.DIRECT_OBJECTS;
    assert PLATFORM_MARK in PipelineObjects(run, objects, LISTED_KINDS);
  }

  lemma PhasesDistinct()
    ensures Distinct(PHASES) && |PHASES| == 7
  {
    B3.StepsDiffer();
    assert PHASES[0][0] == 'p';
    assert B3.STEPS[0][0] == 'i' && B3.STEPS[1][0] == 'm' && B3.STEPS[2][0] == 'm' && B3.STEPS[3][0] == 'm';
    forall i, j | 0 <= i < j < |PHASES| ensures PHASES[i] != PHASES[j] {
      assert PHASES[j] == B3.STEPS[j - 1];
      if i > 0 {
        assert PHASES[i] == B3.STEPS[i - 1];
      }
    }
  }

  lemma NotAmongEarlier(n: nat)
    requires n < |PHASES|
    ensures PHASES[n] !in PHASES[..n]
  {
    PhasesDistinct();
  }

  /** Every phase that a readable receipt ever recorded is one of the first n. */
  ghost predicate RecordedUpTo(trace: seq<Action>, n: nat)
    requires n <= |PHASES|
  {
    forall phase :: HasRecorded(trace, phase) ==> phase in PHASES[..n]
  }

  /** A command takes no phase away and records none. */
  lemma CommandKeeps(full: bool, trace: seq<Action>, action: Action)
    requires action.Command?
    ensures forall m: nat :: m <= |PHASES| && RecordedUpTo(trace, m) ==> RecordedUpTo(trace + [action], m)
    ensures forall m: nat :: m <= |PHASES| && AllCompleted(full, trace, PHASES[..m]) ==> AllCompleted(full, trace + [action], PHASES[..m])
  {
    hide PHASES, AllCompleted, HasRecorded;
    forall m: nat | m <= |PHASES| && RecordedUpTo(trace, m) ensures RecordedUpTo(trace + [action], m) {
      forall phase | HasRecorded(trace + [action], phase) ensures phase in PHASES[..m] {
        RecordedOneMore(trace, action, phase);
      }
    }
    forall m: nat | m <= |PHASES| && AllCompleted(full, trace, PHASES[..m]) ensures AllCompleted(full, trace + [action], PHASES[..m]) {
      CompletedStays(full, trace, action, PHASES[..m]);
    }
  }

  class PipelineHost {
    const run: RunIdentity
    /** Full-data mode uploads the input into the first Job's Pod. */
    const full: bool
    var objects: map<Key, Labels>
    var file: ReceiptFile
    ghost var trace: seq<Action>
    /** How many checks, listings, commands and receipt writes have failed so far. */
    ghost var failures: nat

    /** The receipt is a prefix of the phases, as far as any receipt ever got, and its phases are done. */
    ghost predicate ReceiptHolds()
      reads this`objects, this`file, this`trace
    {
      match file
      case NoReceipt => RecordedUpTo(trace, 0)
      case Unreadable => PLATFORM_MARK in objects
      case Receipt(id, steps) =>
        && id == run.runId && steps.Some? && PLATFORM_MARK in objects
        && exists n :: 1 <= n <= |PHASES| && steps.value == PHASES[..n]
             && RecordedUpTo(trace, n) && AllCompleted(full, trace, PHASES[..n])
    }

    ghost predicate Valid()
      reads this`objects, this`file, this`trace
    {
      SafeTrace(run, full, trace) && ReceiptHolds()
    }

    /** In the middle of an attempt, with the first n phases completed. */
    ghost predicate InProgress(n: nat)
      requires n <= |PHASES|
      reads this`objects, this`file, this`trace
    {
      && Valid()
      && RecordedUpTo(trace, n) && AllCompleted(full, trace, PHASES[..n])
      && (n > 0 ==> PLATFORM_MARK in objects)
    }

    constructor (run: RunIdentity, full: bool, objects: map<Key, Labels>)
      ensures Valid() && file.NoReceipt? && trace == [] && this.run == run && this.full == full && this.objects == objects
    {
      this.run, this.full, this.objects := run, full, objects;
      file, trace, failures := NoReceipt, [], 0;
    }

    /** What a manifest holds; waiting and copying apply nothing. */
    function Manifest(what: Milestone): map<Key, Labels> {
      match what
      case PlatformApplied => PlatformManifest(run)
      case PoliciesApplied => PolicyManifest(run)
      case JobApplied(step) => JobManifest(run, step)
      case _ => map[]
    }

    /**
     Issues one command and waits for its result. It may create anything its manifest holds even when
     it fails in the end, and controllers may create more meanwhile; the history gets the namespace the
     command found.
     */
    method Issue(what: Milestone, ghost n: nat) returns (ok: bool)
      requires n <= |PHASES| && InProgress(n) && MayIssue(run, full, what, objects, trace)
      modifies this`objects, this`trace, this`failures
      ensures InProgress(n) && trace == old(trace) + [Command(what, old(objects), ok)]
      ensures failures == old(failures) + if ok then 0 else 1
      ensures objects.Keys >= old(objects).Keys
      ensures ok ==> Manifest(what).Keys <= objects.Keys
    {
      hide MayIssue, PHASES;
      ghost var before, earlier := objects, trace;
      var fails: bool, created: set<Key>, others: map<Key, Labels> := *, *, *;
      var manifest := Manifest(what);
      objects := objects + (if fails then map k | k in manifest && k in created :: manifest[k] else manifest) + others;
      ok := !fails;
      failures := failures + if ok then 0 else 1;
      ghost var action := Command(what, before, ok);
      SafeWithOneMore(run, full, earlier, action);
      CommandKeeps(full, earlier, action);
      hide SafeTrace, RecordedUpTo, AllCompleted;
      trace := earlier + [action];
    }

    /** Once the route of the next phase is reached, one more phase is completed. */
    lemma PhaseCompleted(n: nat)
      requires n < |PHASES| && InProgress(n) && PLATFORM_MARK in objects && HasCompleted(full, trace, PHASES[n])
      ensures InProgress(n + 1)
    {
      hide PHASES, HasCompleted;
      CompletedOneMore(full, trace, n);
      forall phase | HasRecorded(trace, phase) ensures phase in PHASES[..n + 1] {
        assert phase in PHASES[..n];
        assert PHASES[..n] == PHASES[..n + 1][..n];
      }
    }

    /** `write_text`: not atomic, so a stop halfway leaves a truncated file. */
    method WriteReceipt(n: nat) returns (written: bool)
      requires 1 <= n <= |PHASES| && InProgress(n)
      modifies this`file, this`trace, this`failures
      ensures InProgress(n)
      ensures failures == old(failures) + if written then 0 else 1
      ensures written ==> file == Receipt(run.runId, Some(PHASES[..n])) && trace == old(trace) + [Recorded(PHASES[..n])]
      ensures trace == old(trace) || trace == old(trace) + [Recorded(PHASES[..n])]
    {
      hide PHASES;
      var truncated: bool, complete: bool, returned: bool := *, *, *;
      failures := failures + if truncated && complete && returned then 0 else 1;
      if !truncated {
        return false;
      }
      if !complete {
        file := Unreadable;
        return false;
      }
      ghost var before := trace;
      SafeWithOneMore(run, full, before, Recorded(PHASES[..n]));
      file := Receipt(run.runId, Some(PHASES[..n]));
      trace := trace + [Recorded(PHASES[..n])];
      CompletedStays(full, before, Recorded(PHASES[..n]), PHASES[..n]);
      forall phase | HasRecorded(trace, phase) ensures phase in PHASES[..n] {
        RecordedOneMore(before, Recorded(PHASES[..n]), phase);
      }
      written := returned;
    }

    /** `kubectl get <kind>` in the run namespace. */
    method ListKind(kind: Kind) returns (r: Option<map<Key, Labels>>)
      modifies this`failures
      ensures failures == old(failures) + if r.Some? then 0 else 1
      ensures r.Some? ==> r.value == map k | k in objects && k.0 == kind :: objects[k]
    {
      var fails: bool := *;
      failures := failures + if fails then 1 else 0;
      r := if fails then None else Some(map k | k in objects && k.0 == kind :: objects[k]);
    }

    /** With every listing answered, it passes exactly when the namespace holds nothing of the pipeline. */
    method RequireNamespaceClear() returns (ok: bool)
      modifies this`failures
      ensures failures >= old(failures)
      ensures ok ==> Clear(run, objects) && failures == old(failures)
      ensures failures == old(failures) ==> (ok <==> Clear(run, objects))
    {
      hide ReservedNames, PipelineLabelled;
      var observed: set<Key> := {};
      for i := 0 to |LISTED_KINDS|
        invariant failures == old(failures)
        invariant observed == PipelineObjects(run, objects, LISTED_KINDS[..i])
      {
        var listed := ListKind(LISTED_KINDS[i]);
        if listed.None? {
          return false;
        }
        PrefixStep(LISTED_KINDS, i);
        observed := observed + PipelineObjects(run, listed.value, [LISTED_KINDS[i]]);
      }
      assert LISTED_KINDS[..|LISTED_KINDS|] == LISTED_KINDS;
      ok := observed == {};
    }

    /** The steps that the receipt lets this attempt skip; an unreadable or foreign receipt lets it skip none. */
    function CompletedSteps(): seq<string>
      reads this`file
    {
      if file.Receipt? && file.runId == run.runId && file.completedSteps.Some? then file.completedSteps.value else []
    }

    /** Preflights, the image load and the final ownership collection: they leave the namespace alone. */
    method Check() returns (ok: bool)
      modifies this`failures
      ensures failures == old(failures) + if ok then 0 else 1
    {
      ok := *;
      failures := failures + if ok then 0 else 1;
    }

    /** Issues the next command of a phase's route. */
    method Advance(what: Milestone, ghost goals: seq<Milestone>, ghost i: nat, ghost n: nat, ghost base: seq<Milestone>) returns (ok: bool)
      requires n <= |PHASES| && InProgress(n) && MayIssue(run, full, what, objects, trace)
      requires i < |goals| && goals[i] == what && Reached(trace, goals[..i]) && Sent(trace, base, goals, i)
      modifies this`objects, this`trace, this`failures
      ensures InProgress(n) && trace == old(trace) + [Command(what, old(objects), ok)]
      ensures failures == old(failures) + (if ok then 0 else 1) && Sent(trace, base, goals, i + 1)
      ensures old(objects).Keys <= objects.Keys && (ok ==> Manifest(what).Keys <= objects.Keys)
      ensures ok ==> Reached(trace, goals[..i + 1])
    {
      hide *;
      ghost var before := trace;
      ok := Issue(what, n);
      SentOneMore(before, trace[|before|], base, goals, i);
      if ok {
        ReachedOneMore(before, trace[|before|], goals, i);
      }
    }

    method ApplyPlatformManifests(ghost goals: seq<Milestone>, ghost base: seq<Milestone>) returns (done: bool, ghost sent: nat)
      requires |PHASES| == 7 && goals == Route(full, PHASES[0]) && InProgress(0) && Clear(run, objects) && base == Issued(trace)
      modifies this`objects, this`trace, this`failures
      ensures |PHASES| == 7 && InProgress(0) && old(trace) <= trace && old(objects).Keys <= objects.Keys
      ensures failures >= old(failures) && (done <==> failures == old(failures))
      ensures sent <= |goals| && Sent(trace, base, goals, sent)
      ensures done ==> sent == 2 && Reached(trace, goals[..2]) && PLATFORM_MARK in objects
    {
      hide *;
      PlatformRoute(goals);
      PlatformMarked(run);
      ManifestOfPlatform();
      NothingSent(goals, base);
      done := Advance(PlatformApplied, goals, 0, 0, base);
      sent := 1;
      if done {
        PoliciesMayFollow(goals);
        done := Advance(PoliciesApplied, goals, 1, 0, base);
        sent := 2;
      }
    }

    method RunPlatform() returns (done: bool)
      requires InProgress(0) && Clear(run, objects)
      modifies this
      ensures Valid() && old(trace) <= trace && old(objects).Keys <= objects.Keys
      ensures failures >= old(failures) && (done <==> failures == old(failures))
      ensures |PHASES| == 7 && Pursued(old(trace), trace, Route(full, PHASES[0]), done)
      ensures done ==> InProgress(1) && file == Receipt(run.runId, Some(PHASES[..1]))
    {
      PhasesDistinct();
      hide *;
      ghost var goals, before := Route(full, PHASES[0]), trace;
      ghost var sent;
      done, sent := ApplyPlatformManifests(goals, Issued(before));
      HeldThroughout(0);
      if done {
        done, sent := AwaitPlatform(goals, Issued(before));
        HeldThroughout(0);
        if done {
          RouteReached(goals, 0);
          PhaseCompleted(0);
          ghost var awaited := trace;
          done := WriteReceipt(1);
          HeldThroughout(1);
          ReceiptSendsNothing(awaited, 1, Issued(before), goals, sent);
          PursuedSoFar(before, trace, goals, sent, done);
          return;
        }
      }
      PursuedSoFar(before, trace, goals, sent, false);
    }

    lemma NothingSent(goals: seq<Milestone>, base: seq<Milestone>)
      requires base == Issued(trace)
      ensures Sent(trace, base, goals, 0)
    {
    }

    lemma SuccessEnds(before: seq<Action>)
      requires before != [] && before[|before| - 1].Command? && before[|before| - 1].ok
      ensures !EndsInFailedWait(before)
    {
    }

    lemma RecordedEnds(before: seq<Action>, n: nat)
      requires n <= |PHASES|
      ensures !EndsInFailedWait(before + [Recorded(PHASES[..n])])
    {
    }

    /** Writing a receipt issues no command. */
    lemma ReceiptSendsNothing(before: seq<Action>, n: nat, base: seq<Milestone>, goals: seq<Milestone>, i: nat)
      requires n <= |PHASES| && i <= |goals| && Sent(before, base, goals, i)
      requires trace == before || trace == before + [Recorded(PHASES[..n])]
      ensures Sent(trace, base, goals, i)
    {
      IssuedOneMore(before, Recorded(PHASES[..n]));
    }

    /** Waits for every claim and every rollout, then prepares HDFS. */
    method AwaitPlatform(ghost goals: seq<Milestone>, ghost base: seq<Milestone>) returns (done: bool, ghost sent: nat)
      requires |PHASES| == 7 && goals == Route(full, PHASES[0]) && InProgress(0)
      requires |goals| >= 2 && Reached(trace, goals[..2]) && Sent(trace, base, goals, 2)
      modifies this`objects, this`trace, this`failures
      ensures |PHASES| == 7 && InProgress(0) && old(trace) <= trace && old(objects).Keys <= objects.Keys
      ensures failures >= old(failures) && (done <==> failures == old(failures))
      ensures sent <= |goals| && Sent(trace, base, goals, sent)
      ensures done ==> sent == |goals| && Reached(trace, goals)
    {
      hide PHASES, PipelineHost.InProgress, PipelineHost.Manifest, Reached, HasRecorded, Clear, Route, Sent;
      PlatformRoute(goals);
      sent := 2;
      for i := 0 to |CLAIM_NAMES|
        invariant InProgress(0) && old(trace) <= trace && old(objects).Keys <= objects.Keys && Reached(trace, goals[..2 + i])
        invariant failures == old(failures) && sent == 2 + i && Sent(trace, base, goals, sent)
      {
        done := Advance(ClaimBound(CLAIM_NAMES[i]), goals, 2 + i, 0, base);
        sent := sent + 1;
        if !done {
          return;
        }
      }
      for i := 0 to |WORKLOAD_NAMES|
        invariant InProgress(0) && old(trace) <= trace && old(objects).Keys <= objects.Keys && Reached(trace, goals[..7 + i])
        invariant failures == old(failures) && sent == 7 + i && Sent(trace, base, goals, sent)
      {
        done := Advance(RolledOut(WORKLOAD_NAMES[i]), goals, 7 + i, 0, base);
        sent := sent + 1;
        if !done {
          return;
        }
      }
      done := Advance(HdfsReady, goals, 10, 0, base);
      sent := 11;
      assert goals[..11] == goals;
    }

    lemma PlatformRoute(goals: seq<Milestone>)
      requires |PHASES| > 0 && goals == Route(full, PHASES[0])
      ensures |goals| == 11 && goals[0] == PlatformApplied && goals[1] == PoliciesApplied && goals[10] == HdfsReady
      ensures |CLAIM_NAMES| == 5 && forall i :: 0 <= i < 5 ==> goals[2 + i] == ClaimBound(CLAIM_NAMES[i])
      ensures |WORKLOAD_NAMES| == 3 && forall i :: 0 <= i < 3 ==> goals[7 + i] == RolledOut(WORKLOAD_NAMES[i])
      ensures Reached(trace, goals[..0])
      ensures InProgress(0) && Clear(run, objects) ==> MayIssue(run, full, PlatformApplied, objects, trace)
    {
      hide PHASES;
    }

    lemma ManifestOfPlatform()
      ensures Manifest(PlatformApplied) == PlatformManifest(run)
    {
    }

    lemma PoliciesMayFollow(goals: seq<Milestone>)
      requires |PHASES| > 0 && InProgress(0) && |goals| == 11 && goals[0] == PlatformApplied && Reached(trace, goals[..1])
      ensures MayIssue(run, full, PoliciesApplied, objects, trace)
    {
      hide PHASES;
      assert goals[..1] == [PlatformApplied];
    }

    lemma RouteReached(goals: seq<Milestone>, n: nat)
      requires n < |PHASES| && goals == Route(full, PHASES[n]) && Reached(trace, goals)
      ensures HasCompleted(full, trace, PHASES[n])
    {
    }

    lemma HeldThroughout(n: nat)
      requires n <= |PHASES| && InProgress(n)
      ensures Valid()
    {
    }

    lemma JobMayStart(n: nat)
      requires 1 <= n < |PHASES| && InProgress(n)
      ensures MayIssue(run, full, JobApplied(PHASES[n]), objects, trace)
    {
      hide PHASES;
      NotAmongEarlier(n);
    }

    lemma StepRoute(n: nat)
      requires 1 <= n < |PHASES|
      ensures var goals, staged := Route(full, PHASES[n]), full && PHASES[n] == "input";
              && goals == [JobApplied(PHASES[n])] + (if staged then [InputStaged] else []) + [JobCompleted(PHASES[n])]
              && goals[..0] == [] && goals[..|goals|] == goals && Reached(trace, [])
    {
      PhasesDistinct();
      hide PHASES;
    }

    /** Applies the Job of a step, stages the input in full-data mode, and waits for the Job. */
    method PursueStep(n: nat, ghost goals: seq<Milestone>, ghost base: seq<Milestone>)
      returns (done: bool, waited: bool, ghost sent: nat)
      requires 1 <= n < |PHASES| && InProgress(n) && goals == Route(full, PHASES[n]) && base == Issued(trace)
      modifies this`objects, this`trace, this`failures
      ensures n < |PHASES| && InProgress(n) && old(trace) <= trace && old(objects).Keys <= objects.Keys
      ensures failures >= old(failures) && (done <==> failures == old(failures)) && (done ==> waited)
      ensures sent <= |goals| && Sent(trace, base, goals, sent)
      ensures done ==> sent == |goals| && Reached(trace, goals)
      ensures (EndsInFailedWait(trace) ==> waited) && (waited ==> sent == |goals|)
      ensures done ==> trace != [] && trace[|trace| - 1].Command? && trace[|trace| - 1].ok
    {
      hide PHASES, PipelineHost.InProgress, PipelineHost.Manifest, Reached, Route, MayIssue, Sent;
      waited, sent := false, 0;
      NothingSent(goals, base);
      JobMayStart(n);
      StepRoute(n);
      done := Advance(JobApplied(PHASES[n]), goals, 0, n, base);
      sent := 1;
      if !done {
        return;
      }
      if full && PHASES[n] == "input" {
        WaitAnytime(InputStaged);
        done := Advance(InputStaged, goals, 1, n, base);
        sent := 2;
        if !done {
          return;
        }
      }
      WaitAnytime(JobCompleted(PHASES[n]));
      waited := true;
      done := Advance(JobCompleted(PHASES[n]), goals, sent, n, base);
      sent := sent + 1;
    }

    /**
     Runs a step; a failed wait is written into the receipt, unless writing fails as well, and a step that stops
     before its wait leaves the receipt alone.
     */
    method RunStep(n: nat) returns (done: bool)
      requires 1 <= n < |PHASES| && InProgress(n)
      modifies this
      ensures Valid() && old(trace) <= trace && old(objects).Keys <= objects.Keys
      ensures failures >= old(failures) && (done <==> failures == old(failures))
      ensures Pursued(old(trace), trace, Route(full, PHASES[n]), done)
      ensures trace != old(trace) && EndsInFailedWait(trace) ==> failures >= old(failures) + 2
      ensures Issued(trace) != Issued(old(trace)) + Route(full, PHASES[n]) ==> file == old(file)
      ensures done ==> InProgress(n + 1) && file == Receipt(run.runId, Some(PHASES[..n + 1]))
    {
      hide *;
      HeldThroughout(n);
      MarkStays(n);
      ghost var goals, before := Route(full, PHASES[n]), trace;
      NothingSent(goals, Issued(before));
      var manifestFound := Check();
      if !manifestFound {
        PursuedSoFar(before, trace, goals, 0, false);
        return false;
      }
      var waited;
      ghost var sent;
      done, waited, sent := PursueStep(n, goals, Issued(before));
      HeldThroughout(n);
      ghost var pursued := trace;
      if done {
        RouteReached(goals, n);
        PhaseCompleted(n);
        SuccessEnds(pursued);
        done := WriteReceipt(n + 1);
        HeldThroughout(n + 1);
        RecordedEnds(pursued, n + 1);
        ReceiptSendsNothing(pursued, n + 1, Issued(before), goals, sent);
        AllSent(trace, Issued(before), goals);
      } else if waited {
        var written := WriteReceipt(n);
        HeldThroughout(n);
        ReceiptSendsNothing(pursued, n, Issued(before), goals, sent);
        AllSent(trace, Issued(before), goals);
        RecordedEnds(pursued, n);
      }
      PursuedSoFar(before, trace, goals, sent, done);
    }

    lemma MarkStays(n: nat)
      requires 1 <= n <= |PHASES| && InProgress(n)
      ensures PLATFORM_MARK in objects
    {
    }

    lemma WaitAnytime(what: Milestone)
      requires what.InputStaged? || what.JobCompleted?
      ensures MayIssue(run, full, what, objects, trace)
    {
    }

    /** A non-empty list of completed steps is a prefix of the phases, and all of them are done. */
    lemma ReceiptProgress() returns (n: nat)
      requires Valid() && CompletedSteps() != []
      ensures 1 <= n <= |PHASES| && CompletedSteps() == PHASES[..n] && InProgress(n)
      ensures file == Receipt(run.runId, Some(PHASES[..n]))
    {
      hide PHASES;
      n :| 1 <= n <= |PHASES| && file.completedSteps.value == PHASES[..n]
           && RecordedUpTo(trace, n) && AllCompleted(full, trace, PHASES[..n]);
    }

    /** In a clear namespace nothing was ever recorded: the receipt is absent, not merely unreadable. */
    lemma ClearMeansFresh()
      requires Valid() && Clear(run, objects)
      ensures file.NoReceipt? && InProgress(0)
    {
      hide PHASES;
      hide Clear;
      if PLATFORM_MARK in objects {
        MarkedNotClear(run, objects);
      }
    }

    method RunSteps(completed: seq<string>, ghost n: nat) returns (done: bool)
      requires 1 <= n <= |PHASES| && InProgress(n) && file == Receipt(run.runId, Some(PHASES[..n]))
      requires completed == [] ==> n == 1
      requires completed != [] ==> completed == PHASES[..n]
      modifies this
      ensures Valid() && old(trace) <= trace && old(objects).Keys <= objects.Keys
      ensures failures >= old(failures) && (done <==> failures == old(failures))
      ensures Pursued(old(trace), trace, Remaining(full, n), done)
      ensures done ==> InProgress(|PHASES|)
    {
      hide PHASES, PipelineHost.InProgress, PipelineHost.Valid, Pursued, Route, Remaining;
      HeldThroughout(n);
      ghost var m, before := n, trace;
      NothingPursued(n);
      for i := 1 to |PHASES|
        invariant Valid() && old(trace) <= trace && old(objects).Keys <= objects.Keys
        invariant m == (if i <= n then n else i) && m <= |PHASES| && InProgress(m)
        invariant file == Receipt(run.runId, Some(PHASES[..m]))
        invariant failures == old(failures) && Pursued(before, trace, Between(full, n, m), true)
      {
        Skipped(completed, n, i);
        if PHASES[i] !in completed {
          ghost var earlier := trace;
          done := RunStep(i);
          if !done {
            Stopped(full, before, earlier, trace, n, i);
            return;
          }
          PursuedThen(before, earlier, trace, Between(full, n, i), Route(full, PHASES[i]), true);
          m := i + 1;
          HeldThroughout(m);
        }
      }
      AllBetween(full, n, |PHASES|);
      done := true;
    }

    lemma NothingPursued(n: nat)
      requires n <= |PHASES|
      ensures Pursued(trace, trace, Between(full, n, n), true)
    {
    }

    lemma Skipped(completed: seq<string>, n: nat, i: nat)
      requires 1 <= n <= |PHASES| && 1 <= i < |PHASES|
      requires completed == [] ==> n == 1
      requires completed != [] ==> completed == PHASES[..n]
      ensures PHASES[i] in completed <==> i < n
    {
      PhasesDistinct();
      hide PHASES;
      if i < n {
        assert PHASES[..n][i] == PHASES[i];
      }
    }

    /**
     One attempt at the whole pipeline; it may fail, or crash, after any of its actions. The commands it issues
     are those of the phases that the receipt does not record, in order, up to the first failure. It finishes
     exactly when nothing fails and it may start: there is a readable receipt, or the namespace is clear.
     */
    method ExecutePipeline() returns (outcome: Outcome)
      requires Valid()
      modifies this
      ensures Valid() && old(trace) <= trace && old(objects).Keys <= objects.Keys
      ensures outcome.NotStarted? ==> trace == old(trace) && objects == old(objects) && file == old(file)
      ensures old(file.Unreadable?) ==> outcome.NotStarted?
      ensures outcome.Finished? ==> file == Receipt(run.runId, Some(PHASES))
      ensures failures >= old(failures)
      ensures outcome.Finished? <==> failures == old(failures) && (old(file.Receipt?) || old(Clear(run, objects)))
      ensures failures == old(failures) && !outcome.Finished? ==> outcome.NotStarted?
      ensures |PhasesOn(old(file))| <= |PHASES|
              && Pursued(old(trace), trace, Remaining(full, |PhasesOn(old(file))|), outcome.Finished?)
      ensures outcome.Finished? ==> AppliesJobs(old(trace), trace, |PhasesOn(old(file))|)
    {
      PhasesDistinct();
      PlatformFirst();
      hide PHASES, PipelineHost.InProgress, PipelineHost.Valid, Clear, Pursued, Remaining, Route, AppliesJobs;
      ghost var before := trace;
      ghost var n: nat := 1;
      ReadableMeansProgress();
      if CompletedSteps() != [] {
        n := ReceiptProgress();
      }
      NothingDone(|CompletedSteps()|);
      var preconditionsHold := Check();
      if !preconditionsHold {
        return NotStarted;
      }
      var completed := CompletedSteps();
      if completed == [] {
        var clear := RequireNamespaceClear();
        if !clear {
          return NotStarted;
        }
        ClearMeansFresh();
      }
      var imagesLoaded := Check();
      if !imagesLoaded {
        return NotStarted;
      }
      ghost var started := trace;
      if PHASES[0] !in completed {
        var done := RunPlatform();
        if !done {
          Stopped(full, before, started, trace, 0, 0);
          return Interrupted;
        }
        started := trace;
      }
      var done := RunSteps(completed, n);
      StepsFollow(before, started, trace, |completed|, n, done);
      if !done {
        return Interrupted;
      }
      assert PHASES[..|PHASES|] == PHASES;
      ghost var finished := trace;
      var ownershipValid := Check();
      var written := WriteReceipt(|PHASES|);
      HeldThroughout(|PHASES|);
      RecordedNothingSent(before, finished, trace, Remaining(full, |completed|));
      RemainingJobs(full, before, trace, |completed|);
      outcome := if ownershipValid && written then Finished else Interrupted;
    }

    /** A readable receipt lets the attempt skip exactly the phases written on it, and there is at least one. */
    lemma ReadableMeansProgress()
      requires Valid()
      ensures CompletedSteps() == PhasesOn(file) && (CompletedSteps() != [] <==> file.Receipt?)
    {
      hide PHASES;
    }

    lemma NothingDone(n: nat)
      requires n <= |PHASES|
      ensures Pursued(trace, trace, Remaining(full, n), false)
      ensures n == 0 ==> Pursued(trace, trace, Between(full, 0, 0), true)
    {
    }

    /** The platform, unless it is recorded, and the steps together are what remains. */
    lemma StepsFollow(before: seq<Action>, started: seq<Action>, after: seq<Action>, completed: nat, n: nat, done: bool)
      requires completed <= |PHASES| && 1 <= n <= |PHASES|
      requires if completed == 0 then n == 1 && Pursued(before, started, Route(full, PHASES[0]), true) else n == completed && started == before
      requires Pursued(started, after, Remaining(full, n), done)
      ensures Pursued(before, after, Remaining(full, completed), done)
    {
      hide PHASES, Pursued, Route;
      if completed == 0 {
        PursuedThen(before, started, after, Route(full, PHASES[0]), Remaining(full, 1), done);
      }
    }

    lemma RecordedNothingSent(before: seq<Action>, finished: seq<Action>, after: seq<Action>, goals: seq<Milestone>)
      requires Pursued(before, finished, goals, true)
      requires after == finished || after == finished + [Recorded(PHASES[..|PHASES|])]
      ensures Pursued(before, after, goals, true) && Pursued(before, after, goals, false)
    {
      hide PHASES;
      IssuedOneMore(finished, Recorded(PHASES[..|PHASES|]));
    }

    lemma PlatformFirst()
      ensures forall n :: 1 <= n <= |PHASES| ==> PHASES[0] in PHASES[..n]
    {
    }

    /** Other actors may create objects in the namespace, and relabel them; they delete nothing. */
    method OtherActors(created: map<Key, Labels>)
      requires Valid()
      modifies this`objects
      ensures Valid() && objects.Keys == old(objects).Keys + created.Keys
    {
      hide PHASES;
      objects := objects + created;
    }

    /** Any number of attempts, with other actors at work in between. */
    method Attempts(created: seq<map<Key, Labels>>) returns (outcomes: seq<Outcome>)
      requires Valid()
      modifies this
      ensures Valid() && old(trace) <= trace
      ensures old(file.Unreadable?) ==> trace == old(trace) && file == old(file)
      ensures |outcomes| == |created|
      ensures outcomes != [] && outcomes[|outcomes| - 1].Finished? ==> file == Receipt(run.runId, Some(PHASES))
    {
      hide PHASES;
      hide PipelineHost.Valid;
      outcomes := [];
      for i := 0 to |created|
        invariant Valid() && old(trace) <= trace && |outcomes| == i
        invariant old(file.Unreadable?) ==> trace == old(trace) && file == old(file)
        invariant outcomes != [] && outcomes[|outcomes| - 1].Finished? ==> file == Receipt(run.runId, Some(PHASES))
      {
        OtherActors(created[i]);
        var outcome := ExecutePipeline();
        outcomes := outcomes + [outcome];
      }
    }
  }

  // ----- what an attempt asks for -----

  lemma {:induction false} JobsOfBoth(first: seq<Milestone>, second: seq<Milestone>)
    ensures JobsApplied(first + second) == JobsApplied(first) + JobsApplied(second)
  {
    if first == [] {
      assert first + second == second;
    } else {
      assert (first + second)[1..] == first[1..] + second;
      JobsOfBoth(first[1..], second);
    }
  }

  lemma {:induction false} NoJobs(commands: seq<Milestone>)
    requires forall i :: 0 <= i < |commands| ==> !commands[i].JobApplied?
    ensures JobsApplied(commands) == []
  {
    if commands != [] {
      NoJobs(commands[1..]);
    }
  }

  lemma JobsOfRoute(full: bool, n: nat)
    requires n < |PHASES|
    ensures JobsApplied(Route(full, PHASES[n])) == if n == 0 then [] else [PHASES[n]]
  {
    PhasesDistinct();
    hide PHASES;
    var route := Route(full, PHASES[n]);
    if n == 0 {
      NoJobs(route);
    } else {
      NoJobs(route[1..]);
    }
  }

  /** The phases that remain call for one Job each, in the order of the steps. */
  lemma {:induction false} JobsOfRemaining(full: bool, n: nat)
    requires n <= |PHASES|
    ensures |PHASES| == 1 + |B3.STEPS| && JobsApplied(Remaining(full, n)) == B3.STEPS[if n == 0 then 0 else n - 1..]
    decreases |PHASES| - n
  {
    PhaseIsStep(n);
    hide PHASES, Route;
    if n < |PHASES| {
      JobsOfRemaining(full, n + 1);
      JobsOfBoth(Route(full, PHASES[n]), Remaining(full, n + 1));
      JobsOfRoute(full, n);
    }
  }

  /** The Jobs applied meanwhile are those of the steps that are not among the first n phases, in order. */
  ghost predicate AppliesJobs(before: seq<Action>, after: seq<Action>, n: nat) {
    && n <= 1 + |B3.STEPS| && |Issued(before)| <= |Issued(after)|
    && JobsApplied(Issued(after)[|Issued(before)|..]) == B3.STEPS[if n == 0 then 0 else n - 1..]
  }

  lemma RemainingJobs(full: bool, before: seq<Action>, after: seq<Action>, n: nat)
    requires n <= |PHASES| && Pursued(before, after, Remaining(full, n), true)
    ensures AppliesJobs(before, after, n)
  {
    JobsOfRemaining(full, n);
    hide PHASES, Issued, JobsApplied, Remaining;
    assert Issued(after)[|Issued(before)|..] == Remaining(full, n);
  }

  lemma PhaseIsStep(n: nat)
    requires n <= |PHASES|
    ensures |PHASES| == 1 + |B3.STEPS| == 7 && (1 <= n < |PHASES| ==> PHASES[n] == B3.STEPS[n - 1])
  {
  }

  /** The steps, and what the platform and a step call for, spelled out. */
  lemma RoutesSpelledOut(full: bool, step: string)
    requires step in B3.STEPS
    ensures PHASES == ["platform", "input", "module1", "module2", "module4", "replay", "hybrid"]
    ensures Route(full, "platform") == [
              PlatformApplied, PoliciesApplied,
              ClaimBound("it4931-hdfs-namenode"), ClaimBound("it4931-hdfs-datanode"), ClaimBound("it4931-kafka-data"),
              ClaimBound("it4931-pipeline-data"), ClaimBound("it4931-pipeline-checkpoints"),
              RolledOut("hdfs-namenode"), RolledOut("hdfs-datanode"), RolledOut("kafka"), HdfsReady]
    ensures Route(full, step) == if full && step == "input" then [JobApplied(step), InputStaged, JobCompleted(step)]
                                 else [JobApplied(step), JobCompleted(step)]
  {
    PhasesDistinct();
    assert step != PHASES[0];
  }

  /** Every claim and every StatefulSet that the platform creates is awaited before the first Job. */
  lemma PlatformAwaitsAll(full: bool, k: Key)
    requires k in B3.DIRECT_OBJECTS
    ensures k.0.PersistentVolumeClaim? ==> ClaimBound(k.1) in Route(full, "platform")
    ensures k.0.StatefulSet? ==> RolledOut(k.1) in Route(full, "platform")
  {
    RoutesSpelledOut(full, B3.STEPS[0]);
    hide Route;
  }

  // ----- what a valid history says, position by position -----

  /** Where a route is reached, its milestones are found one after the other. */
  lemma ReachedPair(trace: seq<Action>, first: Milestone, middle: seq<Milestone>, last: Milestone) returns (i: nat, j: nat)
    requires Reached(trace, [first] + middle + [last])
    ensures i < j < |trace|
    ensures trace[i].Command? && trace[i].ok && trace[i].what == first
    ensures trace[j].Command? && trace[j].ok && trace[j].what == last
    decreases |middle|
  {
    var goals := [first] + middle + [last];
    assert goals[..|goals| - 1] == [first] + middle;
    j :| 0 <= j < |trace| && trace[j].Command? && trace[j].ok && trace[j].what == last && Reached(trace[..j], [first] + middle);
    if middle == [] {
      assert [first] + middle == [first];
      i :| 0 <= i < j && trace[..j][i].Command? && trace[..j][i].ok && trace[..j][i].what == first;
    } else {
      var m := |middle| - 1;
      assert [first] + middle == [first] + middle[..m] + [middle[m]];
      var inner: nat;
      i, inner := ReachedPair(trace[..j], first, middle[..m], middle[m]);
    }
  }

  /**
   When a Job is applied, the platform was applied and became ready before, and the Job of every earlier
   step was applied and then awaited with success.
   */
  lemma EarlierPhasesCompletedFirst(run: RunIdentity, full: bool, trace: seq<Action>, i: nat, n: nat, m: nat)
    requires SafeTrace(run, full, trace) && i < |trace| && 1 <= n < |PHASES| && m < n
    requires trace[i].Command? && trace[i].what == JobApplied(PHASES[n])
    ensures HasCompleted(full, trace[..i], PHASES[m])
    ensures exists a, b :: 0 <= a < b < i && trace[a].Command? && trace[a].ok && trace[b].Command? && trace[b].ok
              && trace[a].what == (if m == 0 then PlatformApplied else JobApplied(PHASES[m]))
              && trace[b].what == (if m == 0 then HdfsReady else JobCompleted(PHASES[m]))
  {
    PhasesDistinct();
    hide PHASES, Reached, Claims, Rollouts;
    assert Permitted(run, full, trace[i], trace[..i]);
    var k :| 1 <= k < |PHASES| && PHASES[k] == PHASES[n] && AllCompleted(full, trace[..i], PHASES[..k]);
    assert k == n;
    assert HasCompleted(full, trace[..i], PHASES[..n][m]);
    var goals := Route(full, PHASES[m]);
    var middle := goals[1..|goals| - 1];
    assert goals == [goals[0]] + middle + [goals[|goals| - 1]];
    var a, b := ReachedPair(trace[..i], goals[0], middle, goals[|goals| - 1]);
    assert trace[..i][a] == trace[a] && trace[..i][b] == trace[b];
  }

  /** A step that a receipt recorded as complete is never applied again, and neither is the platform. */
  lemma RecordedPhaseNotAppliedAgain(run: RunIdentity, full: bool, trace: seq<Action>, i: nat, j: nat, phase: string)
    requires SafeTrace(run, full, trace) && i < j < |trace| && trace[j].Command?
    requires trace[i].Recorded? && phase in trace[i].phases
    ensures trace[j].what != JobApplied(phase)
    ensures phase == PHASES[0] ==> !trace[j].what.PlatformApplied? && !trace[j].what.PoliciesApplied?
  {
    hide PHASES;
    assert Permitted(run, full, trace[j], trace[..j]);
    assert trace[..j][i] == trace[i];
    assert HasRecorded(trace[..j], phase);
  }

  /** Not an object that the manifests name, not a Pod of the three StatefulSets, and without the pipeline's labels. */
  ghost predicate Unreserved(run: RunIdentity, k: Key, labels: Labels) {
    && k !in B3.DIRECT_OBJECTS
    && (forall step :: step in B3.STEPS ==> k != (Job, JobName(step, run.runId)))
    && k !in {(Pod, "hdfs-namenode-0"), (Pod, "hdfs-datanode-0"), (Pod, "kafka-0")}
    && !(&& LabelIs(labels, "it4931.instacart.edu/owner", "instacart-market-basket-analysis")
         && LabelIs(labels, "it4931.instacart.edu/run-id", run.runId)
         && LabelIs(labels, "it4931.instacart.edu/component", "pipeline"))
  }

  /** The namespace check passes exactly when every object of the eight kinds is unreserved. */
  lemma ClearExactly(run: RunIdentity, objects: map<Key, Labels>)
    ensures Clear(run, objects) <==>
            forall k :: k in objects && k.0 in {ConfigMap, ServiceAccount, Service, PersistentVolumeClaim, StatefulSet, NetworkPolicy, Job, Pod}
              ==> Unreserved(run, k, objects[k])
  {
    hide ReservedNames, PipelineLabelled, LISTED_KINDS, Unreserved;
    forall k | k in objects
      ensures k.0 in LISTED_KINDS <==> k.0 in {ConfigMap, ServiceAccount, Service, PersistentVolumeClaim, StatefulSet, NetworkPolicy, Job, Pod}
      ensures Unreserved(run, k, objects[k]) <==> !(k in ReservedNames(run) || PipelineLabelled(objects[k], run.runId))
    {
      ListedKinds(k.0);
      UnreservedMeans(run, k, objects[k]);
    }
    if !Clear(run, objects) {
      var k := Inhabitant(PipelineObjects(run, objects, LISTED_KINDS));
      assert k in objects && !Unreserved(run, k, objects[k]);
    } else {
      forall k | k in objects && k.0 in LISTED_KINDS ensures Unreserved(run, k, objects[k]) {
        assert k !in PipelineObjects(run, objects, LISTED_KINDS);
      }
    }
  }

  lemma ListedKinds(kind: Kind)
    ensures kind in LISTED_KINDS <==> kind in {ConfigMap, ServiceAccount, Service, PersistentVolumeClaim, StatefulSet, NetworkPolicy, Job, Pod}
  {
  }

  lemma UnreservedMeans(run: RunIdentity, k: Key, labels: Labels)
    ensures Unreserved(run, k, labels) <==> !(k in ReservedNames(run) || PipelineLabelled(labels, run.runId))
  {
    hide B3.DIRECT_OBJECTS, B3.STEPS, LabelIs;
    forall step | step in B3.STEPS && k == (Job, JobName(step, run.runId)) ensures k in ReservedNames(run) {
      assert k.1 in B3.JobNames(run);
    }
  }

  /** The platform is only ever applied in a namespace without a reserved name or the pipeline's labels. */
  lemma PlatformStartsClear(run: RunIdentity, full: bool, trace: seq<Action>, i: nat, k: Key)
    requires SafeTrace(run, full, trace) && i < |trace| && trace[i].Command? && trace[i].what.PlatformApplied?
    requires k in trace[i].before
    requires k.0 in {ConfigMap, ServiceAccount, Service, PersistentVolumeClaim, StatefulSet, NetworkPolicy, Job, Pod}
    ensures Unreserved(run, k, trace[i].before[k])
  {
    hide PHASES, Unreserved, Clear;
    assert Permitted(run, full, trace[i], trace[..i]);
    ClearExactly(run, trace[i].before);
  }

  /** Every receipt ever written holds a prefix of the phases, all completed before. */
  lemma ReceiptsArePrefixes(run: RunIdentity, full: bool, trace: seq<Action>, i: nat, n: nat)
    requires SafeTrace(run, full, trace) && i < |trace| && trace[i].Recorded? && n < |trace[i].phases|
    ensures trace[i].phases <= PHASES
    ensures HasCompleted(full, trace[..i], PHASES[n])
  {
    hide PHASES, HasCompleted;
    assert Permitted(run, full, trace[i], trace[..i]);
    assert trace[i].phases[n] == PHASES[n];
  }
}
