/**
 The guarded teardown of one run: every guard first, then at most two delete commands
 (scripts/k8s/teardown.py).
 */
module Teardown {
  import opened Wrappers
  import opened Collections
  import opened Ownership
  import opened Inventory
  import B2 = ServingReceipt
  import B3 = PipelineReceipt

  datatype Command = DeleteNamespace(context: string, namespace: string) | DeleteProfile(profile: string)

  datatype CommandResult = Exited(code: int) | Raised

  datatype Issued = Issued(command: Command, result: CommandResult)

  /** Runs commands on the host; any exit code and any exception are possible. */
  class CommandExecutor {
    ghost var issued: seq<Issued>

    constructor ()
      ensures issued == []
    {
      issued := [];
    }

    method Run(command: Command) returns (r: CommandResult)
      modifies this
      ensures issued == old(issued) + [Issued(command, r)]
    {
      var raised: bool := *;
      var code: int := *;
      r := if raised then Raised else Exited(code);
      issued := issued + [Issued(command, r)];
    }
  }

  /** The B4 receipt: the outcome of its own checks, and the identities it binds. */
  datatype Acceptance = Acceptance(
    bindsRun: bool, scopeAuthorises: bool, checksValid: bool, artifactsValid: bool,
    clusterUid: string, namespaceUid: string, jobUid: Option<string>, podUid: Option<string>)

  /** The acceptance Job and its Pod, where they exist. */
  datatype JobIdentity = JobIdentity(jobUid: Option<string>, podUid: Option<string>)

  /** The reply to `kubectl get job` for the acceptance Job. */
  datatype JobReply = JobQueryFailed | JobNotFound | JobFound(uid: Option<string>)

  /** Everything the guards read; None stands for evidence that could not be read, parsed or collected. */
  datatype Evidence = Evidence(
    execute: bool,
    lockValid: bool,
    recordedB2: Option<B2.Receipt>,
    recordedB3: Option<B3.Receipt>,
    acceptance: Option<Acceptance>,
    failureCaptured: bool,
    failureJob: Option<JobIdentity>,
    outputIsNew: bool,
    liveB2: Option<B2.Receipt>,
    liveB3: Option<B3.Receipt>,
    jobReply: JobReply,
    podReply: Option<seq<LiveObject>>,
    replies: Replies)

  datatype Lock = Lock(serving: B2.Expectation, pipeline: B3.Lock)

  datatype Status = Deleted | PartialFailure

  datatype Outcome = Blocked(reason: string) | Finished(status: Status, completed: seq<Command>)

  // ----- guards -----

  predicate RequestValid(e: Evidence) {
    && e.execute && e.lockValid
    && e.recordedB2.Some? && e.recordedB3.Some?
    && (e.acceptance.Some? ==>
          && e.acceptance.value.bindsRun && e.acceptance.value.scopeAuthorises
          && e.acceptance.value.checksValid && e.acceptance.value.artifactsValid)
    && e.failureCaptured && e.outputIsNew
  }

  ghost predicate ReceiptsMatchLive(run: RunIdentity, lock: Lock, e: Evidence)
    requires e.recordedB2.Some? && e.recordedB3.Some?
  {
    && e.liveB2.Some? && B2.Accepts(run, e.recordedB2.value, lock.serving)
    && B2.SameEvidence(e.recordedB2.value, e.liveB2.value)
    && e.liveB3.Some? && B3.Accepts(run, e.recordedB3.value, lock.pipeline)
    && e.recordedB3.value == e.liveB3.value
  }

  function ExpectedJob(e: Evidence): Option<JobIdentity> {
    if e.acceptance.Some? then Some(JobIdentity(e.acceptance.value.jobUid, e.acceptance.value.podUid))
    else e.failureJob
  }

  /** The Pod's one owner is the acceptance Job, as its controller, and both have UIDs. */
  predicate PodOfJob(run: RunIdentity, pod: LiveObject, jobUid: Option<string>) {
    && jobUid.Some? && jobUid.value != "" && pod.uid != ""
    && |pod.owners| == 1 && RefOf(pod.owners[0]) == OwnerRef(Some(Job), Some(AcceptanceJob(run)), jobUid, true)
  }

  /** `_live_acceptance_job`: the Job by name, then its Pods by the label `job-name`. */
  function LiveJob(run: RunIdentity, e: Evidence): Option<JobIdentity> {
    match e.jobReply
    case JobQueryFailed => None
    case JobNotFound => Some(JobIdentity(None, None))
    case JobFound(uid) =>
      if e.podReply.None? || |e.podReply.value| > 1 then None
      else if e.podReply.value == [] then Some(JobIdentity(uid, None))
      else if PodOfJob(run, e.podReply.value[0], uid) then Some(JobIdentity(uid, Some(e.podReply.value[0].uid)))
      else None
  }

  predicate AcceptanceMatchesLive(run: RunIdentity, e: Evidence)
    requires e.liveB3.Some?
  {
    && (e.acceptance.Some? ==>
          && e.acceptance.value.clusterUid == e.liveB3.value.clusterUid
          && e.acceptance.value.namespaceUid == e.liveB3.value.namespaceUid)
    && LiveJob(run, e).Some? && ExpectedJob(e) == LiveJob(run, e)
  }

  ghost predicate GuardsPass(run: RunIdentity, lock: Lock, e: Evidence) {
    && RequestValid(e)
    && ReceiptsMatchLive(run, lock, e)
    && AcceptanceMatchesLive(run, e)
    && InventoryExact(run, e.recordedB2.value, e.recordedB3.value, LiveJob(run, e).value.jobUid, LiveJob(run, e).value.podUid, e.replies)
  }

  method CheckReceipts(run: RunIdentity, lock: Lock, e: Evidence) returns (ok: bool)
    requires e.recordedB2.Some? && e.recordedB3.Some?
    ensures ok <==> ReceiptsMatchLive(run, lock, e)
  {
    hide B2.Accepts;
    hide B2.SameEvidence;
    hide B3.Accepts;
    ok := false;
    if e.liveB2.Some? && e.liveB3.Some? {
      var v := B2.AssertReceiptMatchesLive(run, e.recordedB2.value, e.liveB2.value, lock.serving);
      if v.Accepted? {
        v := B3.AssertPipelineReceiptMatchesLive(run, e.recordedB3.value, e.liveB3.value, lock.pipeline);
        ok := v.Accepted?;
      }
    }
  }

  method CheckGuards(run: RunIdentity, lock: Lock, e: Evidence) returns (v: Verdict)
    ensures v.Accepted? <==> GuardsPass(run, lock, e)
  {
    hide ReceiptsMatchLive;
    hide InventoryExact;
    hide RequestValid;
    hide LiveJob;
    hide ExpectedJob;
    assert RequestValid(e) ==> e.recordedB2.Some? && e.recordedB3.Some? by { RequestHasReceipts(e); }
    if !RequestValid(e) {
      return Refused("authorization, lock, receipts, failure evidence or output path");
    }
    var ok := CheckReceipts(run, lock, e);
    if !ok {
      return Refused("fresh B2/B3 receipts do not match live ownership; no resources were deleted");
    }
    assert e.liveB3.Some? by { MatchHasLive(run, lock, e); }
    if !AcceptanceMatchesLive(run, e) {
      return Refused("B4 identity differs from its recorded acceptance or failure evidence");
    }
    v := ValidateCompleteProfileInventory(
      run, e.recordedB2.value, e.recordedB3.value, LiveJob(run, e).value.jobUid, LiveJob(run, e).value.podUid, e.replies);
  }

  lemma RequestHasReceipts(e: Evidence)
    ensures RequestValid(e) ==> e.recordedB2.Some? && e.recordedB3.Some?
  {
  }

  lemma MatchHasLive(run: RunIdentity, lock: Lock, e: Evidence)
    requires e.recordedB2.Some? && e.recordedB3.Some? && ReceiptsMatchLive(run, lock, e)
    ensures e.liveB2.Some? && e.liveB3.Some?
  {
  }

  // ----- actions -----

  function Actions(run: RunIdentity): seq<Command> {
    [DeleteNamespace(run.Profile(), run.Namespace()), DeleteProfile(run.Profile())]
  }

  /** Namespace before profile, each command at most once, and the profile only after the namespace went. */
  ghost predicate InOrder(run: RunIdentity, log: seq<Issued>) {
    && |log| <= 2
    && (|log| >= 1 ==> log[0].command == DeleteNamespace("it4931-k8s-" + run.runId, "it4931-k8s-" + run.runId))
    && (|log| == 2 ==> log[0].result == Exited(0) && log[1].command == DeleteProfile("it4931-k8s-" + run.runId))
    && (|log| == 1 ==> log[0].result != Exited(0))
  }

  /** The receipt lists exactly the commands that succeeded, and says `deleted` only when both did. */
  ghost predicate ReportsLog(log: seq<Issued>, status: Status, completed: seq<Command>) {
    && (status.Deleted? <==> |log| == 2 && log[0].result == Exited(0) && log[1].result == Exited(0))
    && |completed| <= |log|
    && (forall i :: 0 <= i < |completed| ==> completed[i] == log[i].command && log[i].result == Exited(0))
    && (forall i :: |completed| <= i < |log| ==> log[i].result != Exited(0))
  }

  method Delete(executor: CommandExecutor, run: RunIdentity) returns (status: Status, completed: seq<Command>, ghost log: seq<Issued>)
    modifies executor
    ensures executor.issued == old(executor.issued) + log
    ensures log != [] && InOrder(run, log) && ReportsLog(log, status, completed)
  {
    var actions := Actions(run);
    completed, log := [], [];
    for i := 0 to |actions|
      invariant executor.issued == old(executor.issued) + log
      invariant |log| == |completed| == i
      invariant forall j :: 0 <= j < i ==> log[j] == Issued(actions[j], Exited(0)) && completed[j] == actions[j]
    {
      var result := executor.Run(actions[i]);
      log := log + [Issued(actions[i], result)];
      if result != Exited(0) {
        return PartialFailure, completed, log;
      }
      completed := completed + [actions[i]];
    }
    status := Deleted;
  }

  /**
   For every behaviour of the executor: no delete command before every guard has passed, then the namespace
   and, only when that succeeded, the profile, and a receipt of exactly what succeeded.
   */
  method TeardownRun(executor: CommandExecutor, run: RunIdentity, lock: Lock, e: Evidence)
    returns (outcome: Outcome, ghost log: seq<Issued>)
    modifies executor
    ensures executor.issued == old(executor.issued) + log
    ensures log == [] <==> !GuardsPass(run, lock, e)
    ensures outcome.Blocked? <==> log == []
    ensures InOrder(run, log)
    ensures |log| >= 1 ==> log[0].command == DeleteNamespace(run.Profile(), run.Namespace())
    ensures |log| == 2 ==> log[1].command == DeleteProfile(run.Profile())
    ensures outcome.Finished? ==> ReportsLog(log, outcome.status, outcome.completed)
  {
    hide GuardsPass;
    var v := CheckGuards(run, lock, e);
    if v.Refused? {
      return Blocked(v.reason), [];
    }
    var status, completed;
    status, completed, log := Delete(executor, run);
    outcome := Finished(status, completed);
  }

  // ----- what a passed guard guarantees about the objects a namespace deletion reaches -----

  lemma PassedReceipts(run: RunIdentity, lock: Lock, e: Evidence)
    requires GuardsPass(run, lock, e)
    ensures e.recordedB2.Some? && e.recordedB3.Some?
    ensures B2.Accepts(run, e.recordedB2.value, lock.serving)
    ensures B3.Accepts(run, e.recordedB3.value, lock.pipeline)
  {
    hide InventoryExact;
    hide B2.Accepts;
    hide B3.Accepts;
    hide B2.SameEvidence;
  }

  lemma PassedNames(run: RunIdentity, lock: Lock, e: Evidence, r: ObjectRecord)
    requires GuardsPass(run, lock, e) && r in Records(e.recordedB2.value, e.recordedB3.value)
    ensures !AcceptanceName(run, r.Key())
  {
    hide RequestValid;
    hide ReceiptsMatchLive;
    hide InventoryExact;
    hide AcceptanceName;
    hide B2.Accepts;
    hide B3.Accepts;
    PassedReceipts(run, lock, e);
    if r in e.recordedB2.value.objects {
      ServingNamesFree(run, e.recordedB2.value, lock.serving, r);
    } else {
      PipelineNamesFree(run, e.recordedB3.value, lock.pipeline, r);
    }
  }

  /**
   Once a delete command is issued, every object listed in the run namespace is either recorded by the
   receipts or the acceptance evidence, or is a derived object that passed its check, never both; a derived
   object is bound to an expected one unless it is a revision whose owner reference lacks a UID.
   */
  lemma DeletionReachesOnlyOwnedObjects(run: RunIdentity, lock: Lock, e: Evidence, o: LiveObject)
    requires GuardsPass(run, lock, e)
    requires Listed(e.replies.resources.value, o)
    ensures var b2, b3, job := e.recordedB2.value, e.recordedB3.value, LiveJob(run, e).value;
            var live := FirstLive(AllItems(e.replies.resources.value));
            var receipted := Receipted(run, b2, b3, job.jobUid);
            && (AccountedFor(run, o, Records(b2, b3), job.jobUid, job.podUid) <==> !DerivedKind(o.kind))
            && o.Key() in live
            && DerivedAuthorised(run, live[o.Key()], receipted, AuthorisedUids(receipted, b2, b3), live)
            && (DerivedOwned(run, live[o.Key()], receipted, AuthorisedUids(receipted, b2, b3), live)
                <==> (o.kind.ControllerRevision? ==> OwnersIdentified(o)))
  {
    hide DerivedOwned;
    hide OwnersIdentified;
    hide LiveJob;
    hide AcceptanceName;
    hide AccountedFor;
    hide DerivedAuthorised;
    hide InventoryExact;
    hide ReceiptsMatchLive;
    hide Listed;
    hide AllItems;
    hide FirstLive;
    var b2, b3, job := e.recordedB2.value, e.recordedB3.value, LiveJob(run, e).value;
    forall r | r in Records(b2, b3) ensures !AcceptanceName(run, r.Key()) {
      PassedNames(run, lock, e, r);
    }
    InventoryPartition(run, b2, b3, job.jobUid, job.podUid, e.replies, o);
  }

  /** Once a delete command is issued, no receipted object has disappeared or changed its identity. */
  lemma DeletionFindsEveryRecord(run: RunIdentity, lock: Lock, e: Evidence, r: ObjectRecord)
    requires GuardsPass(run, lock, e) && r in Records(e.recordedB2.value, e.recordedB3.value)
    ensures e.replies.resources.Some? && exists o :: Listed(e.replies.resources.value, o) && MatchesRecord(o, r)
  {
    hide AcceptanceName;
    hide Listed;
    hide MatchesRecord;
    hide ReceiptsMatchLive;
    hide NamespacesExact;
    hide NamespaceInventoryExact;
    hide StorageExact;
    PassedNames(run, lock, e, r);
    EveryRecordLive(run, e.recordedB2.value, e.recordedB3.value, LiveJob(run, e).value.jobUid, LiveJob(run, e).value.podUid, e.replies, r);
  }

  /** Once a delete command is issued, the profile's volumes are exactly the receipted ones. */
  lemma DeletionReachesOnlyReceiptedVolumes(run: RunIdentity, lock: Lock, e: Evidence, v: Volume)
    requires GuardsPass(run, lock, e) && v in e.replies.volumes.value
    ensures exists r :: r in StorageRecords(e.recordedB2.value, e.recordedB3.value) && Binds(run, v, r)
    ensures |e.replies.volumes.value| == 1 + |e.recordedB3.value.storage|
  {
    hide NamespacesExact;
    hide NamespaceInventoryExact;
    hide ReceiptsMatchLive;
    hide VolumesExact;
    hide ClassesExact;
    VolumesBijectWithRecords(run, StorageRecords(e.recordedB2.value, e.recordedB3.value), e.replies.volumes.value);
  }

  // ----- the acceptance Job, its Pod and their Events -----

  /** Once a delete command is issued, the acceptance Job and Pod that were looked up are live with their identities. */
  lemma DeletionFindsAcceptance(run: RunIdentity, lock: Lock, e: Evidence)
    requires GuardsPass(run, lock, e)
    ensures var job, lists := LiveJob(run, e).value, e.replies.resources.value;
            && (job.jobUid.Some? ==> exists o :: Listed(lists, o) && IsAcceptanceJob(run, o, job.jobUid))
            && (job.podUid.Some? ==> exists o :: Listed(lists, o) && IsAcceptancePod(run, o, job.jobUid, job.podUid))
  {
    hide LiveJob, ReceiptsMatchLive, NamespacesExact, NamespaceInventoryExact, StorageExact, IsAcceptanceJob, IsAcceptancePod, Listed;
    EveryEvidenceLive(run, e.recordedB2.value, e.recordedB3.value, LiveJob(run, e).value.jobUid, LiveJob(run, e).value.podUid, e.replies);
  }

  /** The label selector was honoured, and no Pod it found changed its labels before the full listing. */
  ghost predicate TruthfulLookup(run: RunIdentity, e: Evidence) {
    e.podReply.Some? ==>
      forall p :: p in e.podReply.value ==>
        && LabelIs(p.LabelsOrNone(), "job-name", AcceptanceJob(run))
        && (e.replies.resources.Some? ==>
              forall o :: Listed(e.replies.resources.value, o) && o.kind.Pod? && o.uid == p.uid ==> o.LabelsOrNone() == p.LabelsOrNone())
  }

  lemma NoJobNameLabel(run: RunIdentity)
    ensures "job-name" !in AcceptancePodLabels(run)
  {
    var key := "job-name";
    assert |key| == 8;
    assert |"it4931.instacart.edu/owner"| > 8 && |"it4931.instacart.edu/run-id"| > 8 && |"app.kubernetes.io/managed-by"| > 8;
    assert |"app.kubernetes.io/name"| > 8 && |"it4931.instacart.edu/component"| > 8;
    assert |"it4931.instacart.edu/role"| > 8 && |"it4931.instacart.edu/step"| > 8;
  }

  /**
   The lookup finds the acceptance Pod by a label that the final comparison does not allow it to have:
   while the lookup finds a Pod, the guards refuse.
   */
  lemma FoundPodRefuses(run: RunIdentity, lock: Lock, e: Evidence)
    requires TruthfulLookup(run, e) && GuardsPass(run, lock, e)
    ensures LiveJob(run, e).value.podUid == None
  {
    hide GuardsPass, LiveJob, IsAcceptanceJob, IsAcceptancePod, Listed, AcceptancePodLabels, AcceptanceJob, AllItems;
    PassedAgree(run, lock, e);
    DeletionFindsAcceptance(run, lock, e);
    NoJobNameLabel(run);
    var job := LiveJob(run, e).value;
    if job.podUid.Some? {
      var o :| Listed(e.replies.resources.value, o) && IsAcceptancePod(run, o, job.jobUid, job.podUid);
      FoundPod(run, e);
      AcceptancePodShows(run, o, job.jobUid, job.podUid);
    }
  }

  lemma FoundPod(run: RunIdentity, e: Evidence)
    requires LiveJob(run, e).Some? && LiveJob(run, e).value.podUid.Some?
    ensures e.podReply.Some? && |e.podReply.value| == 1 && e.podReply.value[0].uid == LiveJob(run, e).value.podUid.value
    ensures e.podReply.value[0] in e.podReply.value
  {
  }

  lemma AcceptancePodShows(run: RunIdentity, o: LiveObject, jobUid: Option<string>, podUid: Option<string>)
    requires IsAcceptancePod(run, o, jobUid, podUid)
    ensures o.kind.Pod? && Some(o.uid) == podUid && o.LabelsOrNone() == AcceptancePodLabels(run)
  {
    hide AcceptancePodLabels, AcceptanceJob;
  }

  /** No recorded Pod is owned by the acceptance Job. */
  lemma RecordedPodsElsewhere(run: RunIdentity, lock: Lock, e: Evidence, r: ObjectRecord)
    requires GuardsPass(run, lock, e) && r in Records(e.recordedB2.value, e.recordedB3.value) && r.kind.Pod?
    ensures forall i :: 0 <= i < |r.owners| ==> !(r.owners[i].kind.Job? && r.owners[i].name == AcceptanceJob(run))
  {
    hide RequestValid, ReceiptsMatchLive, AcceptanceMatchesLive, InventoryExact, B2.Accepts, B3.Accepts, AcceptanceJob;
    PassedReceipts(run, lock, e);
    if r in e.recordedB2.value.objects {
      ServingPodOwner(run, e.recordedB2.value, lock.serving, r);
    } else {
      PipelinePodOwner(run, e.recordedB3.value, lock.pipeline, r);
    }
  }

  lemma ServingPodOwner(run: RunIdentity, r: B2.Receipt, exp: B2.Expectation, o: ObjectRecord)
    requires B2.Accepts(run, r, exp) && o in r.objects && o.kind.Pod?
    ensures forall i :: 0 <= i < |o.owners| ==> !o.owners[i].kind.Job?
  {
    hide B2.Accepts;
    B2.FiveOwnedChildren(run, r, exp);
  }

  lemma PipelinePodOwner(run: RunIdentity, r: B3.Receipt, lock: B3.Lock, o: ObjectRecord)
    requires B3.Accepts(run, r, lock) && o in r.objects && o.kind.Pod?
    ensures forall i :: 0 <= i < |o.owners| ==> !(o.owners[i].kind.Job? && o.owners[i].name == AcceptanceJob(run))
  {
    hide B3.HeaderValid, B3.InventoryDistinct, B3.DirectComplete, B3.StorageValid, B3.RoleCovered, B3.OnePodEach, B3.JobNames;
    B3.CheckedPod(run, o, ByKey(r.objects));
    if o.owners[0].kind.Job? {
      JobNameInitial(run, o.owners[0].name);
      EighthCharacter(run, AcceptanceJob(run));
    }
  }

  /** Once a delete command is issued, no listed Pod belongs to the acceptance Job any more. */
  lemma DeletionWaitsForPod(run: RunIdentity, lock: Lock, e: Evidence, o: LiveObject)
    requires TruthfulLookup(run, e) && GuardsPass(run, lock, e)
    requires Listed(e.replies.resources.value, o) && o.kind.Pod?
    ensures forall i :: 0 <= i < |o.owners| ==> !(o.owners[i].kind == Some(Job) && o.owners[i].name == Some(AcceptanceJob(run)))
  {
    hide TruthfulLookup, GuardsPass, Listed, DerivedAuthorised, DerivedOwned, OwnersIdentified, AcceptanceJob, LiveJob, Receipted, AuthorisedUids,
         AllItems, FirstLive;
    PassedAgree(run, lock, e);
    FoundPodRefuses(run, lock, e);
    DeletionReachesOnlyOwnedObjects(run, lock, e, o);
    var records := Records(e.recordedB2.value, e.recordedB3.value);
    var r :| r in records && MatchesRecord(o, r);
    RecordedPodsElsewhere(run, lock, e, r);
    forall i | 0 <= i < |o.owners| ensures !(o.owners[i].kind == Some(Job) && o.owners[i].name == Some(AcceptanceJob(run))) {
      assert LiveRefs(o.owners)[i] == RecordedRefs(r.owners)[i];
    }
  }

  /** Once a delete command is issued, every Event is about a recorded UID: none is about an acceptance Pod. */
  lemma EventsConcernRecords(run: RunIdentity, lock: Lock, e: Evidence, o: LiveObject)
    requires GuardsPass(run, lock, e) && Listed(e.replies.resources.value, o) && o.kind.Event?
    ensures var live := FirstLive(AllItems(e.replies.resources.value));
            && o.Key() in live && live[o.Key()].regardingUid.Some?
            && live[o.Key()].regardingUid.value in RecordedUids(e.recordedB2.value, e.recordedB3.value, LiveJob(run, e).value.jobUid)
  {
    hide GuardsPass, Listed, DerivedOwned, OwnersIdentified, AcceptanceName, LiveJob, Receipted, AuthorisedUids, AllItems, FirstLive, RecordedUids, AccountedFor;
    PassedAgree(run, lock, e);
    DeletionReachesOnlyOwnedObjects(run, lock, e, o);
    var b2, b3 := e.recordedB2.value, e.recordedB3.value;
    forall r | r in Records(b2, b3) ensures !AcceptanceName(run, r.Key()) {
      PassedNames(run, lock, e, r);
    }
    AuthorisedUidsAreRecorded(run, b2, b3, LiveJob(run, e).value.jobUid);
    var live := FirstLive(AllItems(e.replies.resources.value));
    LiveKind(run, lock, e, o);
    assert live[o.Key()].kind.Event?;
  }

  lemma LiveKind(run: RunIdentity, lock: Lock, e: Evidence, o: LiveObject)
    requires GuardsPass(run, lock, e) && Listed(e.replies.resources.value, o)
    ensures var live := FirstLive(AllItems(e.replies.resources.value)); o.Key() in live && live[o.Key()].kind == o.kind
  {
    hide ReceiptsMatchLive, RequestValid, NamespacesExact, StorageExact, ObjectsExact, RecordsAgree, Discovered, AllItems, LiveJob;
    var first := ListedItem(run, e.replies.resources.value, o);
  }

  lemma PassedAgree(run: RunIdentity, lock: Lock, e: Evidence)
    requires GuardsPass(run, lock, e)
    ensures e.recordedB2.Some? && e.recordedB3.Some? && e.replies.resources.Some? && LiveJob(run, e).Some?
    ensures RecordsAgree(Records(e.recordedB2.value, e.recordedB3.value))
  {
    hide ReceiptsMatchLive, NamespacesExact, StorageExact, ObjectsExact, RecordsAgree, Discovered, AllItems, Scannable, LiveJob;
  }
}
