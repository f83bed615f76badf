/**
 Run identities and the object records that ownership receipts are made of
 (scripts/k8s/ownership.py, scripts/k8s/common.py).
 */
module Ownership {
  import opened Collections

  type Labels = map<string, string>

  /** The API kinds the coordinator names; every other kind keeps its own name. */
  datatype Kind =
    | Pod | ReplicaSet | Deployment | StatefulSet | Job
    | Service | ServiceAccount | ConfigMap | Secret | PersistentVolumeClaim
    | NetworkPolicy | ResourceQuota | LimitRange
    | Event | ControllerRevision | Endpoints | EndpointSlice
    | OtherKind(name: string)

  type Key = (Kind, string)

  datatype Owner = Owner(kind: Kind, name: string, uid: string, controller: bool)

  /** One namespaced object as a receipt records it. */
  datatype ObjectRecord = ObjectRecord(
    kind: Kind, name: string, namespace: string, uid: string, labels: Labels, owners: seq<Owner>)
  {
    function Key(): Key {
      (kind, name)
    }

    /** The only owner is this parent, as its controller. */
    predicate ControlledBy(parent: ObjectRecord) {
      owners == [Owner(parent.kind, parent.name, parent.uid, true)]
    }
  }

  datatype RunIdentity = RunIdentity(runId: string) {
    /** The Minikube profile, its context and the run namespace share one name. */
    function Profile(): string {
      "it4931-k8s-" + runId
    }

    function Namespace(): string {
      "it4931-k8s-" + runId
    }

    function RunLabels(): Labels {
      map[
        "it4931.instacart.edu/owner" := "instacart-market-basket-analysis",
        "it4931.instacart.edu/run-id" := runId,
        "app.kubernetes.io/managed-by" := "it4931-k8s-demo"
      ]
    }
  }

  const PROTECTED_NAMESPACES: set<string> := {"default", "kube-system", "kube-public", "kube-node-lease"}

  predicate Carries(actual: Labels, required: Labels) {
    forall k :: k in required ==> k in actual && actual[k] == required[k]
  }

  predicate LabelIs(labels: Labels, key: string, value: string) {
    key in labels && labels[key] == value
  }

  function JobName(step: string, runId: string): string {
    "it4931-" + step + "-" + runId
  }

  predicate HasPrefix(s: string, prefix: string) {
    prefix <= s
  }

  predicate HasSuffix(s: string, suffix: string) {
    |suffix| <= |s| && s[|s| - |suffix|..] == suffix
  }

  predicate Contains(s: string, part: string) {
    exists i {:trigger s[i..]} :: 0 <= i <= |s| && part <= s[i..]
  }

  predicate Blank(c: char) {
    c in " \t\n\r"
  }

  /** Python's `value.strip()` is non-empty. */
  predicate NotBlank(s: string) {
    exists i :: 0 <= i < |s| && !Blank(s[i])
  }

  function StripTrailing(s: string, c: char): string {
    if s != [] && s[|s| - 1] == c then StripTrailing(s[..|s| - 1], c) else s
  }

  predicate HexDigit(c: char) {
    '0' <= c <= '9' || 'a' <= c <= 'f'
  }

  predicate IsDigest(s: string) {
    |s| == 71 && s[..7] == "sha256:" && forall i :: 7 <= i < 71 ==> HexDigit(s[i])
  }

  /** What follows the last `@`, when there is one. */
  function DigestPart(reference: string): string {
    if reference == [] || reference[|reference| - 1] == '@' then []
    else DigestPart(reference[..|reference| - 1]) + [reference[|reference| - 1]]
  }

  /** The dictionary from (kind, name) to record; a later record replaces an earlier one. */
  function ByKey(objects: seq<ObjectRecord>): map<Key, ObjectRecord> {
    if objects == [] then map[]
    else
      var last := objects[|objects| - 1];
      ByKey(objects[..|objects| - 1])[last.Key() := last]
  }

  ghost predicate UniqueKeys(objects: seq<ObjectRecord>) {
    forall i, j :: 0 <= i < j < |objects| ==> objects[i].Key() != objects[j].Key()
  }

  ghost predicate UniqueUids(objects: seq<ObjectRecord>) {
    forall i, j :: 0 <= i < j < |objects| ==> objects[i].uid != objects[j].uid
  }

  lemma {:induction false} ByKeyHolds(objects: seq<ObjectRecord>)
    ensures forall k :: k in ByKey(objects) ==> ByKey(objects)[k] in objects && ByKey(objects)[k].Key() == k
    ensures forall o :: o in objects ==> o.Key() in ByKey(objects)
    ensures UniqueKeys(objects) ==> forall o :: o in objects ==> ByKey(objects)[o.Key()] == o
  {
    if objects != [] {
      var shorter := objects[..|objects| - 1];
      ByKeyHolds(shorter);
      assert objects == shorter + [objects[|objects| - 1]];
    }
  }

  // ----- what the string tests and the run labels mean -----

  /** The three labels that everything of the run carries. */
  predicate OfRun(labels: Labels, runId: string) {
    && LabelIs(labels, "it4931.instacart.edu/owner", "instacart-market-basket-analysis")
    && LabelIs(labels, "it4931.instacart.edu/run-id", runId)
    && LabelIs(labels, "app.kubernetes.io/managed-by", "it4931-k8s-demo")
  }

  lemma CarriesRunLabels(run: RunIdentity, labels: Labels)
    ensures Carries(labels, run.RunLabels()) <==> OfRun(labels, run.runId)
  {
    var required := run.RunLabels();
    assert |"it4931.instacart.edu/owner"| == 26 && |"it4931.instacart.edu/run-id"| == 27 && |"app.kubernetes.io/managed-by"| == 28;
    assert "it4931.instacart.edu/owner" in required && "it4931.instacart.edu/run-id" in required && "app.kubernetes.io/managed-by" in required;
    assert required["it4931.instacart.edu/owner"] == "instacart-market-basket-analysis";
    assert required["it4931.instacart.edu/run-id"] == run.runId;
    assert required["app.kubernetes.io/managed-by"] == "it4931-k8s-demo";
  }

  lemma SuffixExactly(s: string, suffix: string)
    ensures HasSuffix(s, suffix) <==> exists rest :: s == rest + suffix
  {
    if HasSuffix(s, suffix) {
      assert s == s[..|s| - |suffix|] + suffix;
    }
  }

  lemma ContainsExactly(s: string, part: string)
    ensures Contains(s, part) <==> exists before, after :: s == before + part + after
  {
    if i :| 0 <= i <= |s| && part <= s[i..] {
      assert s == s[..i] + part + s[i..][|part|..];
    }
    if before, after :| s == before + part + after {
      assert s[|before|..] == part + after;
    }
  }

  /** The digest of a reference follows its last `@`. */
  lemma {:induction false} DigestExactly(reference: string)
    requires '@' in reference
    ensures '@' !in DigestPart(reference) && exists name :: reference == name + "@" + DigestPart(reference)
  {
    var last := |reference| - 1;
    if reference[last] == '@' {
      assert reference == reference[..last] + "@" + [];
    } else {
      assert reference == reference[..last] + [reference[last]];
      DigestExactly(reference[..last]);
      var name :| reference[..last] == name + "@" + DigestPart(reference[..last]);
      assert reference == name + "@" + DigestPart(reference);
    }
  }

  lemma {:induction false} TrailingStripped(s: string, c: char)
    ensures StripTrailing(s, c) <= s && forall i :: |StripTrailing(s, c)| <= i < |s| ==> s[i] == c
    ensures StripTrailing(s, c) != "" ==> StripTrailing(s, c)[|StripTrailing(s, c)| - 1] != c
  {
    if s != [] && s[|s| - 1] == c {
      TrailingStripped(s[..|s| - 1], c);
    }
  }

  /** Sixty-four hexadecimal digits after `sha256:`. */
  lemma DigestShape(s: string)
    ensures IsDigest(s) <==>
            exists hex :: s == "sha256:" + hex && |hex| == 64 && forall i :: 0 <= i < 64 ==> hex[i] in "0123456789abcdef"
  {
    forall c: char ensures HexDigit(c) <==> c in "0123456789abcdef" {
    }
    if IsDigest(s) {
      var hex := s[7..];
      assert s == "sha256:" + hex && |hex| == 64;
    }
    if hex :| s == "sha256:" + hex && |hex| == 64 && forall i :: 0 <= i < 64 ==> hex[i] in "0123456789abcdef" {
      assert s[..7] == "sha256:";
      assert forall i :: 7 <= i < 71 ==> s[i] == hex[i - 7];
    }
  }
}
