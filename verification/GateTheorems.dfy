/**
 The evaluation fails closed: a gate is passed only if everything below it is clean, and no evidence that
 is not a pass can be hidden.
 */
module GateTheorems {
  import opened Wrappers
  import opened GateOrder
  import opened GateEvaluation
  import opened GateResults

  // ---- Reasons and status ----

  predicate Telling(reasons: seq<Reason>) {
    forall i :: 0 <= i < |reasons| ==> !StatusFor(reasons[i]).Passed?
  }

  lemma TellingStatus(reasons: seq<Reason>)
    requires Telling(reasons)
    ensures StatusOf(reasons).Passed? <==> reasons == []
  {
  }

  lemma TellingBoth(a: seq<Reason>, b: seq<Reason>)
    requires Telling(a) && Telling(b)
    ensures Telling(a + b)
  {
  }

  lemma {:induction false} ArtifactReasonsTell(check: Id, artifacts: seq<(string, string)>, files: Files, h: Hashing)
    ensures Telling(ArtifactReasons(check, artifacts, files, h))
  {
    hide Intact;
    if artifacts != [] { ArtifactReasonsTell(check, artifacts[..|artifacts| - 1], files, h); }
  }

  lemma RunReasonsTell(check: Check, o: Observation)
    ensures Telling(RunReasons(check, o))
  {
    hide CleanRun, SameCommand;
  }

  lemma CheckReasonsTell(check: Check, observation: Option<Observation>, fingerprint: string, files: Files, h: Hashing)
    ensures Telling(CheckReasons(check, observation, fingerprint, files, h))
  {
    hide RunReasons, ArtifactReasons;
    if observation.Some? {
      RunReasonsTell(check, observation.value);
      ArtifactReasonsTell(check.id, observation.value.artifacts, files, h);
      TellingBoth(RunReasons(check, observation.value),
          ArtifactReasons(check.id, observation.value.artifacts, files, h));
    }
  }

  lemma {:induction false} OwnReasonsTell(st: Setting, checks: seq<Id>, fingerprint: string)
    ensures Telling(OwnReasons(st, checks, fingerprint))
  {
    hide CheckReasons, Telling, Checks;
    if checks == [] {
      assert Telling([]) by { TellNothing(); }
    } else {
      var c := checks[|checks| - 1];
      OwnReasonsTell(st, checks[..|checks| - 1], fingerprint);
      if c in Checks(st) {
        CheckReasonsTell(Checks(st)[c], LastFor(st.evidence.observations, c), fingerprint, st.files, st.h);
      }
      else { TellNothing(); }
      TellingBoth(OwnReasons(st, checks[..|checks| - 1], fingerprint), ReasonsOf(st, c, fingerprint));
    }
  }

  lemma TellNothing()
    ensures Telling([])
  {
  }

  lemma {:induction false} DependencyReasonsTell(deps: seq<Id>, results: Results)
    ensures Telling(DependencyReasons(deps, results))
  {
    if deps != [] { DependencyReasonsTell(deps[..|deps| - 1], results); }
  }

  lemma ResultTells(st: Setting, gate: Gate, results: Results)
    ensures Telling(ResultOf(st, gate, results).reasons)
  {
    hide Telling, OwnReasons, DependencyReasons, Fingerprint;
    OwnReasonsTell(st, gate.checks, Fingerprint(st, gate.id));
    DependencyReasonsTell(gate.dependsOn, results);
    TellingBoth(OwnReasons(st, gate.checks, Fingerprint(st, gate.id)), DependencyReasons(gate.dependsOn, results));
  }

  /** A gate is passed exactly when nothing was found against it. */
  lemma PassedIffNoReasons(st: Setting, results: Results, id: Id)
    requires Evaluated(st, results) && id in results
    ensures results[id].status.Passed? <==> results[id].reasons == []
  {
    hide Gates, Telling, OwnReasons, DependencyReasons, Fingerprint;
    assert id in results.Keys && id in Gates(st).Keys;
    ResultTells(st, Gates(st)[id], results);
    TellingStatus(results[id].reasons);
  }

  // ---- Blocked ----

  lemma LastOfBoth(a: seq<Reason>, b: seq<Reason>)
    requires b != []
    ensures StatusOf(a + b) == StatusOf(b)
  {
  }

  lemma BlockedByOne(st: Setting, results: Results, id: Id, d: Id)
    requires Evaluated(st, results) && id in Gates(st) && d in Gates(st)[id].dependsOn && !Green(results, d)
    ensures id in results && results[id].status.Blocked?
  {
    hide Gates, OwnReasons, DependencyReasons, Fingerprint, StatusOf;
    assert id in Gates(st).Keys;
    var gate := Gates(st)[id];
    NoDependencyReasons(gate.dependsOn, results);
    LastOfBoth(OwnReasons(st, gate.checks, Fingerprint(st, gate.id)), DependencyReasons(gate.dependsOn, results));
  }

  /** A gate that depends, however far down, on one that is not passed is blocked, whatever else is wrong with it. */
  lemma {:induction false} BlockedBelow(st: Setting, results: Results, p: seq<Id>)
    requires Evaluated(st, results) && IsPath(LinksIn(st), p) && |p| >= 2 && !Green(results, p[|p| - 1])
    ensures p[0] in results && results[p[0]].status.Blocked?
  {
    hide Evaluated, Gates;
    assert p[0] in LinksIn(st) && p[1] in LinksIn(st)[p[0]];
    if |p| > 2 {
      PathSuffix(LinksIn(st), p, 1);
      BlockedBelow(st, results, p[1..]);
    }
    BlockedByOne(st, results, p[0], p[1]);
  }

  // ---- Passed ----

  /** Every check of a gate has clean evidence, taken of the gate as it is. */
  ghost predicate OwnClean(st: Setting, id: Id) {
    && id in Gates(st)
    && forall c :: c in Gates(st)[id].checks && c in Checks(st) ==>
         Clean(Checks(st)[c], LastFor(st.evidence.observations, c), Fingerprint(st, id), st.files, st.h)
  }

  lemma {:induction false} NoOwnReasons(st: Setting, checks: seq<Id>, fingerprint: string)
    ensures OwnReasons(st, checks, fingerprint) == [] <==>
            forall c :: c in checks && c in Checks(st) ==>
              Clean(Checks(st)[c], LastFor(st.evidence.observations, c), fingerprint, st.files, st.h)
  {
    hide Clean, CheckReasons, Checks;
    if checks != [] {
      var c := checks[|checks| - 1];
      NoOwnReasons(st, checks[..|checks| - 1], fingerprint);
      if c in Checks(st) {
        CleanLeavesNoReason(Checks(st)[c], LastFor(st.evidence.observations, c), fingerprint, st.files, st.h);
      }
      assert checks == checks[..|checks| - 1] + [c];
    }
  }

  lemma GateIdIsItsKey(gates: seq<Gate>, id: Id)
    requires id in GatesById(gates)
    ensures GatesById(gates)[id].id == id
  {
    GatesByIdHas(gates);
  }

  lemma PassedHere(st: Setting, results: Results, id: Id)
    requires Evaluated(st, results) && id in Gates(st)
    ensures Green(results, id) <==> OwnClean(st, id) && forall d :: d in Gates(st)[id].dependsOn ==> Green(results, d)
  {
    hide OwnReasons, DependencyReasons, Fingerprint, Clean, StatusOf, Checks;
    assert id in Gates(st).Keys;
    var gate := Gates(st)[id];
    GateIdIsItsKey(st.graph.gates, id);
    PassedIffNoReasons(st, results, id);
    NoOwnReasons(st, gate.checks, Fingerprint(st, id));
    NoDependencyReasons(gate.dependsOn, results);
  }

  lemma {:induction false} GreenAlong(st: Setting, results: Results, p: seq<Id>)
    requires Evaluated(st, results) && Closed(LinksIn(st)) && IsPath(LinksIn(st), p) && Green(results, p[0])
    ensures Green(results, p[|p| - 1]) && OwnClean(st, p[|p| - 1])
  {
    hide Evaluated, Gates, OwnClean;
    assert p[0] in Gates(st) by { ResultsAreGates(st, results, p[0]); }
    PassedHere(st, results, p[0]);
    if |p| > 1 {
      assert p[1] in LinksIn(st)[p[0]];
      PathSuffix(LinksIn(st), p, 1);
      GreenAlong(st, results, p[1..]);
    }
  }

  lemma ResultsAreGates(st: Setting, results: Results, id: Id)
    requires Evaluated(st, results)
    ensures id in results <==> id in Gates(st)
  {
    hide Gates, ResultOf;
    assert id in results <==> id in results.Keys;
    assert id in Gates(st) <==> id in Gates(st).Keys;
  }

  lemma {:induction false} CleanIsGreen(st: Setting, results: Results, order: seq<Id>, i: nat)
    requires Evaluated(st, results) && Topological(LinksIn(st), order) && i < |order|
    requires forall a :: Reaches(LinksIn(st), order[i], a) ==> OwnClean(st, a)
    ensures Green(results, order[i])
    decreases i
  {
    hide Evaluated, Gates, OwnClean, Green, Reaches;
    GatesListed(st, order);
    var id := order[i];
    assert id in order;
    ReachesItself(LinksIn(st), id);
    forall d | d in Gates(st)[id].dependsOn ensures Green(results, d) {
      var m :| 0 <= m < |Gates(st)[id].dependsOn| && Gates(st)[id].dependsOn[m] == d;
      assert LinksIn(st)[id][m] in order[..i];
      var j :| 0 <= j < i && order[j] == d;
      forall a | Reaches(LinksIn(st), d, a) ensures OwnClean(st, a) { ReachesBeyond(LinksIn(st), id, d, a); }
      CleanIsGreen(st, results, order, j);
    }
    PassedHere(st, results, id);
  }

  /** A gate is passed exactly when it and everything it depends on, however far down, has clean evidence. */
  lemma PassedIffClosureClean(st: Setting, results: Results, order: seq<Id>, id: Id)
    requires Evaluated(st, results) && Topological(LinksIn(st), order) && id in Gates(st)
    ensures Green(results, id) <==> forall a :: Reaches(LinksIn(st), id, a) ==> OwnClean(st, a)
  {
    hide Evaluated, Gates, OwnClean, Green;
    GatesListed(st, order);
    if Green(results, id) {
      ListedIsClosedAndAcyclic(LinksIn(st), order);
      forall a | Reaches(LinksIn(st), id, a) ensures OwnClean(st, a) {
        var p :| PathFrom(LinksIn(st), p, id, a);
        GreenAlong(st, results, p);
      }
    }
    if forall a :: Reaches(LinksIn(st), id, a) ==> OwnClean(st, a) {
      var i :| 0 <= i < |order| && order[i] == id;
      CleanIsGreen(st, results, order, i);
    }
  }

  // ---- One evaluation only ----

  /** The results do not depend on which topological order the gates are taken in. */
  lemma {:induction false} EvaluationIsUnique(st: Setting, a: Results, b: Results, order: seq<Id>, i: nat)
    requires Evaluated(st, a) && Evaluated(st, b) && Topological(LinksIn(st), order) && i <= |order|
    ensures forall k :: 0 <= k < i ==> order[k] in a && order[k] in b && a[order[k]] == b[order[k]]
  {
    hide ResultOf, Gates;
    if i > 0 {
      EvaluationIsUnique(st, a, b, order, i - 1);
      GatesListed(st, order);
      var id := order[i - 1];
      assert id in order && id in Gates(st).Keys;
      forall d | d in Gates(st)[id].dependsOn ensures Green(a, d) <==> Green(b, d) {
        var m :| 0 <= m < |Gates(st)[id].dependsOn| && Gates(st)[id].dependsOn[m] == d;
        assert LinksIn(st)[id][m] in order[..i - 1];
        var j :| 0 <= j < i - 1 && order[j] == d;
      }
      SameIfSameDependencies(st, Gates(st)[id], a, b);
    }
  }

  // ---- A later observation that is not a pass ----

  function Later(st: Setting, o: Observation): Setting {
    st.(evidence := st.evidence.(observations := st.evidence.observations + [o]))
  }

  lemma LastForLater(observations: seq<Observation>, o: Observation, check: Id)
    ensures LastFor(observations + [o], check) == if o.check == check then Some(o) else LastFor(observations, check)
  {
    assert (observations + [o])[..|observations|] == observations;
  }

  lemma {:induction false} OwnReasonsLater(st: Setting, o: Observation, checks: seq<Id>, fingerprint: string)
    requires o.check !in checks
    ensures OwnReasons(Later(st, o), checks, fingerprint) == OwnReasons(st, checks, fingerprint)
  {
    hide CheckReasons;
    if checks != [] {
      assert checks[|checks| - 1] in checks;
      LastForLater(st.evidence.observations, o, checks[|checks| - 1]);
      OwnReasonsLater(st, o, checks[..|checks| - 1], fingerprint);
    }
  }

  lemma SameResultLater(st: Setting, o: Observation, gate: Gate, a: Results, b: Results)
    requires o.check !in gate.checks && forall d :: d in gate.dependsOn ==> (Green(a, d) <==> Green(b, d))
    ensures ResultOf(Later(st, o), gate, b) == ResultOf(st, gate, a)
  {
    hide OwnReasons;
    OwnReasonsLater(st, o, gate.checks, Fingerprint(st, gate.id));
    DependencyReasonsAgree(gate.dependsOn, a, b);
  }

  /** Only the gate that the check belongs to and the gates that depend on it can have another result. */
  lemma {:induction false} OnlyDependentsChange(st: Setting, o: Observation, a: Results, b: Results, order: seq<Id>,
      i: nat)
    requires Evaluated(st, a) && Evaluated(Later(st, o), b) && Topological(LinksIn(st), order) && i < |order|
    requires forall g :: g in Gates(st) && o.check in Gates(st)[g].checks ==> !Reaches(LinksIn(st), order[i], g)
    ensures order[i] in a && order[i] in b && a[order[i]] == b[order[i]]
    decreases i
  {
    hide ResultOf, Gates, Reaches, GatesById;
    GatesListed(st, order);
    var id := order[i];
    assert id in order && id in Gates(st).Keys;
    assert Gates(Later(st, o)) == Gates(st) by { SameGatesLater(st, o); }
    ReachesItself(LinksIn(st), id);
    forall d | d in Gates(st)[id].dependsOn ensures Green(a, d) <==> Green(b, d) {
      var m :| 0 <= m < |Gates(st)[id].dependsOn| && Gates(st)[id].dependsOn[m] == d;
      assert LinksIn(st)[id][m] in order[..i];
      var j :| 0 <= j < i && order[j] == d;
      forall g | g in Gates(st) && o.check in Gates(st)[g].checks ensures !Reaches(LinksIn(st), d, g) {
        if Reaches(LinksIn(st), d, g) { ReachesBeyond(LinksIn(st), id, d, g); }
      }
      OnlyDependentsChange(st, o, a, b, order, j);
    }
    SameResultLater(st, o, Gates(st)[id], a, b);
  }

  lemma SameGatesLater(st: Setting, o: Observation)
    ensures Gates(Later(st, o)) == Gates(st) && Checks(Later(st, o)) == Checks(st)
  {
  }

  /** The gate the check belongs to is not passed any more, nor is any gate that depends on it. */
  lemma NotAPassIsNotHidden(st: Setting, o: Observation, b: Results, g: Id)
    requires Evaluated(Later(st, o), b) && !o.status.Passed?
    requires g in Gates(st) && o.check in Gates(st)[g].checks && o.check in Checks(st)
    ensures g in b && !Green(b, g)
    ensures forall p: seq<Id> :: |p| >= 2 && IsPath(LinksIn(st), p) && p[|p| - 1] == g ==>
              p[0] in b &&
              b[p[0]].status.Blocked?
  {
    hide Evaluated, Gates, Checks, Fingerprint, IsPath;
    SameGatesLater(st, o);
    ResultsAreGates(Later(st, o), b, g);
    PassedHere(Later(st, o), b, g);
    LastForLater(st.evidence.observations, o, o.check);
    assert LinksIn(Later(st, o)) == LinksIn(st);
    forall p: seq<Id> | |p| >= 2 && IsPath(LinksIn(st), p) && p[|p| - 1] == g
        ensures p[0] in b && b[p[0]].status.Blocked? {
      BlockedBelow(Later(st, o), b, p);
    }
  }
}
