/**
 What each gate's evaluation comes to, and why a release cannot be ready while anything below it is not.
 */
module GateResults {
  import opened Wrappers
  import opened GateOrder
  import opened GateEvaluation

  // ---- Reasons ----

  datatype Reason =
    | NoEvidence(check: Id)
    | NotPassed(check: Id, observed: Status)
    | Stale(check: Id)
    | NoCleanRun(check: Id)
    | CommandDiffers(check: Id)
    | NotIndependent(check: Id)
    | NoArtifact(check: Id)
    | ArtifactChanged(check: Id, path: string)
    | DependencyNotGreen(gate: Id)

  /** The status a reason gives its gate. */
  function StatusFor(r: Reason): Status {
    match r
    case NoEvidence(_) => Pending
    case NotPassed(_, observed) => observed
    case Stale(_) => OutOfDate
    case NoCleanRun(_) => Failed
    case CommandDiffers(_) => Failed
    case NotIndependent(_) => Failed
    case NoArtifact(_) => Failed
    case ArtifactChanged(_, _) => OutOfDate
    case DependencyNotGreen(_) => Blocked
  }

  /** Each reason overwrites the status, so the last one stays. */
  function StatusOf(reasons: seq<Reason>): Status {
    if reasons == [] then Passed else StatusFor(reasons[|reasons| - 1])
  }

  // ---- One check ----

  function LastFor(observations: seq<Observation>, check: Id): Option<Observation> {
    if observations == [] then None
    else if observations[|observations| - 1].check == check then Some(observations[|observations| - 1])
    else LastFor(observations[..|observations| - 1], check)
  }

  predicate PinnedRuntime(kind: CheckKind, runtime: Option<string>) {
    match (kind, runtime)
    case (NodeCheck, Some(text)) => text == "v22.23.2"
    case (DenoCheck, Some(text)) => "deno 2.9.6" <= text && (|text| == 10 || IsSpace(text[10]))
    case _ => false
  }

  predicate CleanRun(kind: CheckKind, o: Observation) {
    && o.exitCode == Some(0) && o.skipped == Some(0)
    && o.command.Some? && o.command.value != []
    && PinnedRuntime(kind, o.runtime)
  }

  /** The command's arguments, without the runtime it starts with, are the graph's. */
  predicate SameCommand(check: Check, o: Observation) {
    (match o.command
     case None => None
     case Some(words) => Some(if words == [] then [] else words[1..])) == check.args
  }

  predicate Intact(files: Files, h: Hashing, artifact: (string, string)) {
    artifact.0 in files && h(files[artifact.0]) == artifact.1
  }

  function ArtifactReasons(check: Id, artifacts: seq<(string, string)>, files: Files, h: Hashing): seq<Reason> {
    if artifacts == [] then []
    else
      var last := artifacts[|artifacts| - 1];
      ArtifactReasons(check, artifacts[..|artifacts| - 1], files, h) +
        if Intact(files, h, last) then [] else [ArtifactChanged(check, last.0)]
  }

  function When(b: bool, r: Reason): seq<Reason> {
    if b then [r] else []
  }

  /** What can be wrong with evidence that says passed and is not stale, before its artifacts. */
  function RunReasons(check: Check, o: Observation): seq<Reason> {
    When(!check.kind.ManualCheck? && !CleanRun(check.kind, o), NoCleanRun(check.id)) +
    When(!check.kind.ManualCheck? && !SameCommand(check, o), CommandDiffers(check.id)) +
    When(check.independentOf.Some? && o.actor in check.independentOf.value, NotIndependent(check.id)) +
    When(o.artifacts == [], NoArtifact(check.id))
  }

  function CheckReasons(check: Check, observation: Option<Observation>, fingerprint: string, files: Files,
                        h: Hashing): seq<Reason> {
    if observation.None? then [NoEvidence(check.id)]
    else
      var o := observation.value;
      if !o.status.Passed? then [NotPassed(check.id, o.status)]
      else if o.sourceHash != fingerprint then [Stale(check.id)]
      else RunReasons(check, o) + ArtifactReasons(check.id, o.artifacts, files, h)
  }

  /** What a check that leaves no reason has behind it. */
  predicate Clean(check: Check, observation: Option<Observation>, fingerprint: string, files: Files, h: Hashing) {
    && observation.Some?
    && observation.value.status.Passed?
    && observation.value.sourceHash == fingerprint
    && (!check.kind.ManualCheck? ==> CleanRun(check.kind, observation.value) && SameCommand(check, observation.value))
    && (check.independentOf.Some? ==> observation.value.actor !in check.independentOf.value)
    && observation.value.artifacts != []
    && (forall a :: a in observation.value.artifacts ==> Intact(files, h, a))
  }

  lemma {:induction false} NoArtifactReasons(check: Id, artifacts: seq<(string, string)>, files: Files, h: Hashing)
    ensures ArtifactReasons(check, artifacts, files, h) == [] <==> forall a :: a in artifacts ==> Intact(files, h, a)
  {
    if artifacts != [] {
      NoArtifactReasons(check, artifacts[..|artifacts| - 1], files, h);
      assert artifacts == artifacts[..|artifacts| - 1] + [artifacts[|artifacts| - 1]];
    }
  }

  lemma CleanLeavesNoReason(check: Check, observation: Option<Observation>, fingerprint: string, files: Files,
                            h: Hashing)
    ensures CheckReasons(check, observation, fingerprint, files, h) == [] <==>
            Clean(check, observation, fingerprint, files, h)
  {
    hide CleanRun, SameCommand, Intact, ArtifactReasons;
    if observation.Some? { NoArtifactReasons(check.id, observation.value.artifacts, files, h); }
  }

  method CheckArtifacts(check: Id, artifacts: seq<(string, string)>, files: Files, h: Hashing, sofar: seq<Reason>,
                        before: Status)
    returns (reasons: seq<Reason>, status: Status, intact: bool)
    requires before == StatusOf(sofar)
    ensures reasons == sofar + ArtifactReasons(check, artifacts, files, h)
    ensures status == StatusOf(reasons)
    ensures intact <==> ArtifactReasons(check, artifacts, files, h) == []
  {
    reasons, status, intact := sofar, before, true;
    for i := 0 to |artifacts|
      invariant reasons == sofar + ArtifactReasons(check, artifacts[..i], files, h)
      invariant status == StatusOf(reasons)
      invariant intact <==> ArtifactReasons(check, artifacts[..i], files, h) == []
    {
      assert artifacts[..i + 1][..i] == artifacts[..i];
      var (path, digest) := artifacts[i];
      if !(path in files && h(files[path]) == digest) {
        reasons, status, intact := reasons + [ArtifactChanged(check, path)], OutOfDate, false;
      }
    }
    assert artifacts[..|artifacts|] == artifacts;
  }

  method CheckTheRun(check: Check, o: Observation, sofar: seq<Reason>, before: Status)
      returns (reasons: seq<Reason>, status: Status, clean: bool)
    requires before == StatusOf(sofar)
    ensures reasons == sofar + RunReasons(check, o)
    ensures status == StatusOf(reasons)
    ensures clean <==> RunReasons(check, o) == []
  {
    hide CleanRun, SameCommand;
    ghost var found: seq<Reason> := [];
    reasons, status, clean := sofar, before, true;
    if !check.kind.ManualCheck? && !CleanRun(check.kind, o) {
      reasons, status, clean := reasons + [NoCleanRun(check.id)], Failed, false;
      found := found + [NoCleanRun(check.id)];
    }
    if !check.kind.ManualCheck? && !SameCommand(check, o) {
      reasons, status, clean := reasons + [CommandDiffers(check.id)], Failed, false;
      found := found + [CommandDiffers(check.id)];
    }
    if check.independentOf.Some? && o.actor in check.independentOf.value {
      reasons, status, clean := reasons + [NotIndependent(check.id)], Failed, false;
      found := found + [NotIndependent(check.id)];
    }
    if o.artifacts == [] {
      reasons, status, clean := reasons + [NoArtifact(check.id)], Failed, false;
      found := found + [NoArtifact(check.id)];
    }
    assert found == RunReasons(check, o) && reasons == sofar + found;
  }

  /** The reasons of one check, and the status as each leaves it. */
  method EvaluateCheck(check: Check, observation: Option<Observation>, fingerprint: string, files: Files, h: Hashing,
                       sofar: seq<Reason>, before: Status) returns (reasons: seq<Reason>, status: Status, valid: bool)
    requires before == StatusOf(sofar)
    ensures reasons == sofar + CheckReasons(check, observation, fingerprint, files, h)
    ensures status == StatusOf(reasons)
    ensures valid <==> Clean(check, observation, fingerprint, files, h)
  {
    hide CleanRun, SameCommand, Intact, Clean, ArtifactReasons, RunReasons;
    reasons, status, valid := sofar, before, true;
    CleanLeavesNoReason(check, observation, fingerprint, files, h);
    if observation.None? {
      reasons, status, valid := reasons + [NoEvidence(check.id)], Pending, false;
      return;
    }
    var o := observation.value;
    if !o.status.Passed? {
      reasons, status, valid := reasons + [NotPassed(check.id, o.status)], o.status, false;
      return;
    }
    if o.sourceHash != fingerprint {
      reasons, status, valid := reasons + [Stale(check.id)], OutOfDate, false;
      return;
    }
    var clean;
    reasons, status, clean := CheckTheRun(check, o, reasons, status);
    var intact;
    reasons, status, intact := CheckArtifacts(check.id, o.artifacts, files, h, reasons, status);
    valid := clean && intact;
  }

  // ---- One gate ----

  datatype Setting = Setting(graph: Graph, evidence: Evidence, files: Files, h: Hashing)

  datatype GateResult = GateResult(id: Id, status: Status, reasons: seq<Reason>, sourceHash: string)

  type Results = map<Id, GateResult>

  function Gates(st: Setting): map<Id, Gate> {
    GatesById(st.graph.gates)
  }

  function Checks(st: Setting): map<Id, Check> {
    ChecksById(st.graph.checks)
  }

  function LinksIn(st: Setting): Links {
    LinksOf(Gates(st))
  }

  ghost function Fingerprint(st: Setting, id: Id): string {
    FingerprintOf(st.graph, id, st.files, st.h)
  }

  function ReasonsOf(st: Setting, check: Id, fingerprint: string): seq<Reason> {
    if check in Checks(st) then CheckReasons(Checks(st)[check], LastFor(st.evidence.observations, check), fingerprint,
        st.files, st.h) else []
  }

  function OwnReasons(st: Setting, checks: seq<Id>, fingerprint: string): seq<Reason> {
    if checks == [] then []
    else OwnReasons(st, checks[..|checks| - 1], fingerprint) + ReasonsOf(st, checks[|checks| - 1], fingerprint)
  }

  predicate Green(results: Results, id: Id) {
    id in results && results[id].status.Passed?
  }

  function DependencyReasons(deps: seq<Id>, results: Results): seq<Reason> {
    if deps == [] then []
    else
      var last := deps[|deps| - 1];
      DependencyReasons(deps[..|deps| - 1], results) + if Green(results, last) then [] else [DependencyNotGreen(last)]
  }

  ghost function ResultOf(st: Setting, gate: Gate, results: Results): GateResult {
    var fingerprint := Fingerprint(st, gate.id);
    var reasons := OwnReasons(st, gate.checks, fingerprint) + DependencyReasons(gate.dependsOn, results);
    GateResult(gate.id, StatusOf(reasons), reasons, fingerprint)
  }

  /** Every gate's result is what its own checks and the results of its dependencies make it. */
  ghost predicate Evaluated(st: Setting, results: Results) {
    && results.Keys == Gates(st).Keys
    && (forall id :: id in results && id in Gates(st) ==> results[id] == ResultOf(st, Gates(st)[id], results))
  }

  ghost function ResultsUpTo(st: Setting, order: seq<Id>, n: nat): Results
    requires n <= |order|
  {
    if n == 0 then map[]
    else
      var before := ResultsUpTo(st, order, n - 1);
      if order[n - 1] in Gates(st) then before[order[n - 1] := ResultOf(st, Gates(st)[order[n - 1]], before)]
          else before
  }

  // ---- Results along an order ----

  lemma {:induction false} DependencyReasonsAgree(deps: seq<Id>, a: Results, b: Results)
    requires forall d :: d in deps ==> (Green(a, d) <==> Green(b, d))
    ensures DependencyReasons(deps, a) == DependencyReasons(deps, b)
  {
    if deps != [] { DependencyReasonsAgree(deps[..|deps| - 1], a, b); }
  }

  lemma {:induction false} NoDependencyReasons(deps: seq<Id>, results: Results)
    ensures DependencyReasons(deps, results) == [] <==> forall d :: d in deps ==> Green(results, d)
    ensures DependencyReasons(deps, results) != [] ==> StatusOf(DependencyReasons(deps, results)).Blocked?
  {
    if deps != [] {
      NoDependencyReasons(deps[..|deps| - 1], results);
      assert deps == deps[..|deps| - 1] + [deps[|deps| - 1]];
    }
  }

  lemma {:induction false} UpToKeys(st: Setting, order: seq<Id>, n: nat)
    requires n <= |order| && forall a :: a in order ==> a in Gates(st)
    ensures ResultsUpTo(st, order, n).Keys == set a | a in order[..n]
  {
    hide ResultOf, Gates;
    if n > 0 {
      UpToKeys(st, order, n - 1);
      assert order[..n] == order[..n - 1] + [order[n - 1]];
      assert order[n - 1] in order;
    }
  }

  lemma {:induction false} UpToStays(st: Setting, order: seq<Id>, n: nat, k: nat)
    requires k < n <= |order| && Distinct(order) && forall a :: a in order ==> a in Gates(st)
    ensures order[k] in ResultsUpTo(st, order, n)
    ensures ResultsUpTo(st, order, n)[order[k]] == ResultOf(st, Gates(st)[order[k]], ResultsUpTo(st, order, k))
  {
    hide ResultOf, Gates;
    assert order[n - 1] in order;
    if k < n - 1 {
      UpToStays(st, order, n - 1, k);
      assert order[k] != order[n - 1];
    }
  }

  lemma GatesListed(st: Setting, order: seq<Id>)
    requires Topological(LinksIn(st), order)
    ensures forall a :: a in order <==> a in Gates(st)
  {
    forall a ensures a in order <==> a in Gates(st) { assert a in order <==> a in LinksIn(st); }
  }

  /** Evaluating along a topological order gives every gate the result its final dependencies call for. */
  lemma AlongIsEvaluated(st: Setting, order: seq<Id>)
    requires Topological(LinksIn(st), order)
    ensures Evaluated(st, ResultsUpTo(st, order, |order|))
  {
    hide ResultOf, Gates, Topological;
    var final := ResultsUpTo(st, order, |order|);
    GatesListed(st, order);
    UpToKeys(st, order, |order|);
    assert order[..|order|] == order;
    forall id | id in final && id in Gates(st) ensures final[id] == ResultOf(st, Gates(st)[id], final) {
      var k :| 0 <= k < |order| && order[k] == id;
      AlongAgrees(st, order, k);
    }
  }

  lemma SameIfSameDependencies(st: Setting, gate: Gate, a: Results, b: Results)
    requires forall d :: d in gate.dependsOn ==> (Green(a, d) <==> Green(b, d))
    ensures ResultOf(st, gate, a) == ResultOf(st, gate, b)
  {
    hide OwnReasons, Fingerprint;
    DependencyReasonsAgree(gate.dependsOn, a, b);
  }

  lemma AlongAgrees(st: Setting, order: seq<Id>, k: nat)
    requires Topological(LinksIn(st), order) && k < |order|
    ensures order[k] in Gates(st)
    ensures var final := ResultsUpTo(st, order, |order|);
            order[k] in final && final[order[k]] == ResultOf(st, Gates(st)[order[k]], final)
  {
    hide ResultOf, ResultsUpTo, Gates;
    var final, before := ResultsUpTo(st, order, |order|), ResultsUpTo(st, order, k);
    GatesListed(st, order);
    assert order[k] in order;
    UpToStays(st, order, |order|, k);
    var gate := Gates(st)[order[k]];
    forall d | d in gate.dependsOn ensures Green(before, d) <==> Green(final, d) {
      var m :| 0 <= m < |gate.dependsOn| && gate.dependsOn[m] == d;
      assert LinksIn(st)[order[k]][m] in order[..k];
      var j :| 0 <= j < k && order[j] == d;
      UpToStays(st, order, |order|, j);
      UpToStays(st, order, k, j);
    }
    SameIfSameDependencies(st, gate, before, final);
  }
}
