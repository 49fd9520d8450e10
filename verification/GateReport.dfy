/**
 The whole evaluation, from a graph and its evidence to the answer whether a release is ready.
 */
module GateReport {
  import opened Wrappers
  import opened GateOrder
  import opened GateEvaluation
  import opened GateResults
  import opened GateTheorems

  datatype Report = Report(ready: bool, gates: seq<GateResult>, openBlockers: seq<Id>)

  // ---- Specification ----

  /** A check counts as clean in the gate it belongs to. */
  ghost predicate CleanIn(st: Setting, g: Id, c: Id) {
    c in Checks(st) && Clean(Checks(st)[c], LastFor(st.evidence.observations, c), Fingerprint(st, g), st.files, st.h)
  }

  /** A closed finding needs every one of its closure checks clean; an open one blocks outright. */
  ghost predicate Blocks(st: Setting, f: Finding) {
    f.blocking && (!f.closed || exists c, g ::
      c in f.closureChecks && g in Gates(st) && c in Gates(st)[g].checks &&
      !CleanIn(st, g, c))
  }

  ghost function OpenBlockers(st: Setting, findings: seq<Finding>): seq<Id> {
    if findings == [] then []
    else
      var last := findings[|findings| - 1];
      OpenBlockers(st, findings[..|findings| - 1]) + if Blocks(st, last) then [last.id] else []
  }

  function Listed(order: seq<Id>, results: Results): seq<GateResult>
    requires forall id :: id in order ==> id in results
  {
    seq(|order|, i requires 0 <= i < |order| => assert order[i] in order; results[order[i]])
  }

  ghost predicate IsReport(st: Setting, order: seq<Id>, report: Report) {
    var results := ResultsUpTo(st, order, |order|);
    && Topological(LinksIn(st), order)
    && (forall id :: id in order ==> id in results)
    && report.gates == Listed(order, results)
    && report.openBlockers == OpenBlockers(st, st.evidence.findings)
    && (report.ready <==> report.openBlockers == [] && forall id :: id in order ==> results[id].status.Passed?)
  }

  /** Every gate's checks are in the graph. */
  ghost predicate ChecksThere(st: Setting) {
    forall g, c :: g in Gates(st) && c in Gates(st)[g].checks ==> c in Checks(st)
  }

  // ---- Evaluation, step by step ----

  /** Whether each check seen so far is clean. */
  ghost predicate States(st: Setting, states: map<Id, bool>, done: set<Id>) {
    && (forall c :: c in states <==> exists g :: g in done && g in Gates(st) && c in Gates(st)[g].checks)
    && (forall c, g :: c in states && g in done && g in Gates(st) && c in Gates(st)[g].checks ==>
       (states[c] <==> CleanIn(st, g, c)))
  }

  lemma NothingIsPassed()
    ensures StatusOf([]) == Passed
  {
  }

  lemma CleanInIs(st: Setting, g: Id, c: Id)
    requires c in Checks(st)
    ensures CleanIn(st, g, c) <==> Clean(Checks(st)[c], LastFor(st.evidence.observations, c), Fingerprint(st, g),
            st.files, st.h)
  {
  }

  /** `after` is `before` with the state of each of the checks. */
  ghost predicate Judged(st: Setting, id: Id, checks: seq<Id>, before: map<Id, bool>, after: map<Id, bool>) {
    && (forall c :: c in after <==> c in before || c in checks)
    && (forall c :: c in checks && c in after ==> (after[c] <==> CleanIn(st, id, c)))
    && (forall c :: c in before && c !in checks && c in after ==> after[c] == before[c])
  }

  lemma OneMoreJudged(st: Setting, id: Id, checks: seq<Id>, before: map<Id, bool>, mid: map<Id, bool>, c: Id)
    requires Judged(st, id, checks, before, mid)
    ensures Judged(st, id, checks + [c], before, mid[c := CleanIn(st, id, c)])
  {
    hide CleanIn;
  }

  method EvaluateChecks(st: Setting, gate: Gate, fingerprint: string, states: map<Id, bool>)
    returns (reasons: seq<Reason>, status: Status, after: map<Id, bool>)
    requires forall c :: c in gate.checks ==> c in Checks(st)
    requires fingerprint == Fingerprint(st, gate.id)
    ensures reasons == OwnReasons(st, gate.checks, fingerprint) && status == StatusOf(reasons)
    ensures Judged(st, gate.id, gate.checks, states, after)
  {
    hide Clean, CheckReasons, Checks, Fingerprint, StatusOf, CleanIn, Judged;
    NothingIsPassed();
    NothingJudged(st, gate.id, states);
    reasons, status, after := [], Passed, states;
    for i := 0 to |gate.checks|
      invariant reasons == OwnReasons(st, gate.checks[..i], fingerprint) && status == StatusOf(reasons)
      invariant Judged(st, gate.id, gate.checks[..i], states, after)
    {
      var checkId := gate.checks[i];
      assert gate.checks[..i + 1] == gate.checks[..i] + [checkId];
      var valid;
      reasons, status, valid := EvaluateCheck(Checks(st)[checkId], LastFor(st.evidence.observations, checkId),
          fingerprint, st.files, st.h, reasons, status);
      CleanInIs(st, gate.id, checkId);
      OneMoreJudged(st, gate.id, gate.checks[..i], states, after, checkId);
      after := after[checkId := valid];
    }
    assert gate.checks[..|gate.checks|] == gate.checks;
  }

  lemma NothingJudged(st: Setting, id: Id, states: map<Id, bool>)
    ensures Judged(st, id, [], states, states)
  {
  }

  method EvaluateDependencies(deps: seq<Id>, results: Results, sofar: seq<Reason>, before: Status)
      returns (reasons: seq<Reason>, status: Status)
    requires before == StatusOf(sofar)
    ensures reasons == sofar + DependencyReasons(deps, results) && status == StatusOf(reasons)
  {
    reasons, status := sofar, before;
    for i := 0 to |deps|
      invariant reasons == sofar + DependencyReasons(deps[..i], results) && status == StatusOf(reasons)
    {
      assert deps[..i + 1][..i] == deps[..i];
      if !(deps[i] in results && results[deps[i]].status.Passed?) {
        reasons, status := reasons + [DependencyNotGreen(deps[i])], Blocked;
      }
    }
    assert deps[..|deps|] == deps;
  }

  lemma StatesGrow(st: Setting, before: map<Id, bool>, after: map<Id, bool>, done: set<Id>, id: Id)
    requires States(st, before, done) && id in Gates(st) && id !in done
    requires EachCheckOnce(Gates(st), Checks(st))
    requires Judged(st, id, Gates(st)[id].checks, before, after)
    ensures States(st, after, done + {id})
  {
    hide CleanIn, Gates, Checks;
  }

  method EvaluateGate(st: Setting, id: Id, results: Results, states: map<Id, bool>, ghost done: set<Id>)
    returns (result: GateResult, after: map<Id, bool>)
    requires Closed(LinksIn(st)) && id in Gates(st) && id !in done
    requires EachCheckOnce(Gates(st), Checks(st))
    requires ChecksThere(st)
    requires States(st, states, done)
    ensures result == ResultOf(st, Gates(st)[id], results)
    ensures States(st, after, done + {id})
  {
    hide OwnReasons, DependencyReasons, CleanIn, States, EachCheckOnce, Judged;
    var gate := Gates(st)[id];
    GateIdIsItsKey(st.graph.gates, id);
    var fingerprint := GateFingerprint(st.graph, id, st.files, st.h);
    var reasons, status;
    reasons, status, after := EvaluateChecks(st, gate, fingerprint, states);
    StatesGrow(st, states, after, done, id);
    reasons, status := EvaluateDependencies(gate.dependsOn, results, reasons, status);
    result := GateResult(id, status, reasons, fingerprint);
  }

  /** Every gate in order, with the state of every check. */
  method EvaluateGates(st: Setting, order: seq<Id>) returns (results: Results, states: map<Id, bool>)
    requires Topological(LinksIn(st), order)
    requires EachCheckOnce(Gates(st), Checks(st))
    requires ChecksThere(st)
    ensures results == ResultsUpTo(st, order, |order|)
    ensures forall id :: id in order ==> id in results
    ensures States(st, states, SetOf(order))
  {
    hide ResultOf, Gates, Checks, EachCheckOnce, States, Topological, CleanIn, ChecksThere, Distinct, Closed;
    GatesListed(st, order);
    ListedOnce(LinksIn(st), order);
    results, states := map[], map[];
    assert SetOf(order[..0]) == {};
    NoStates(st);
    for i := 0 to |order|
      invariant results == ResultsUpTo(st, order, i)
      invariant forall k :: 0 <= k < i ==> order[k] in results
      invariant States(st, states, SetOf(order[..i]))
    {
      assert order[i] in order;
      ghost var done := SetOf(order[..i]);
      NotInPrefix(order, i);
      SetOfOneMore(order, i);
      var result, after := EvaluateGate(st, order[i], results, states, done);
      results, states := results[order[i] := result], after;
    }
    assert order[..|order|] == order;
  }

  function SetOf(s: seq<Id>): set<Id> {
    set a | a in s
  }

  lemma SetOfOneMore(s: seq<Id>, i: nat)
    requires i < |s|
    ensures SetOf(s[..i + 1]) == SetOf(s[..i]) + {s[i]}
  {
    assert s[..i + 1] == s[..i] + [s[i]];
  }

  lemma NoStates(st: Setting)
    ensures States(st, map[], {})
  {
  }

  lemma ListedOnce(links: Links, order: seq<Id>)
    requires Topological(links, order)
    ensures Distinct(order) && Closed(links)
  {
    ListedIsClosedAndAcyclic(links, order);
  }

  lemma BlocksByStates(st: Setting, states: map<Id, bool>, f: Finding)
    requires States(st, states, Gates(st).Keys)
    requires forall c :: c in f.closureChecks ==> c in states
    ensures Blocks(st, f) <==> f.blocking && (!f.closed || exists c :: c in f.closureChecks && !states[c])
  {
    hide CleanIn, Gates;
    if f.blocking && f.closed && exists c :: c in f.closureChecks && !states[c] {
      var c :| c in f.closureChecks && !states[c];
      var g :| g in Gates(st).Keys && g in Gates(st) && c in Gates(st)[g].checks;
    }
  }

  method FindOpenBlockers(st: Setting, states: map<Id, bool>) returns (open: seq<Id>)
    requires States(st, states, Gates(st).Keys)
    requires forall f :: f in st.evidence.findings ==> forall c :: c in f.closureChecks ==> c in states
    ensures open == OpenBlockers(st, st.evidence.findings)
  {
    hide Blocks, States;
    var findings := st.evidence.findings;
    open := [];
    for i := 0 to |findings|
      invariant open == OpenBlockers(st, findings[..i])
    {
      assert findings[..i + 1][..i] == findings[..i];
      var f := findings[i];
      assert f in findings;
      BlocksByStates(st, states, f);
      if f.blocking && (!f.closed || exists c :: c in f.closureChecks && !states[c]) { open := open + [f.id]; }
    }
    assert findings[..|findings|] == findings;
  }

  method ReportOn(st: Setting, order: seq<Id>) returns (report: Report)
    requires Topological(LinksIn(st), order) && EachCheckOnce(Gates(st), Checks(st))
    requires ChecksThere(st)
    requires EvidenceValid(st.evidence, Gates(st), Checks(st))
    ensures IsReport(st, order, report)
  {
    hide EvidenceValid, ResultsUpTo, States, OpenBlockers, Gates, Checks, EachCheckOnce, Topological, ChecksThere;
    GatesListed(st, order);
    var results, states := EvaluateGates(st, order);
    var list := Listed(order, results);
    assert SetOf(order) == Gates(st).Keys;
    StatesCover(st, states, st.evidence);
    var open := FindOpenBlockers(st, states);
    var ready := open == [];
    for i := 0 to |list|
      invariant ready <==> open == [] && forall k :: 0 <= k < i ==> list[k].status.Passed?
    {
      if !list[i].status.Passed? { ready := false; }
    }
    report := Report(ready, list, open);
    AllListed(order, results, list);
  }

  /** The evaluation as a whole. It throws exactly on a graph or evidence that breaks the rules, or a cycle. */
  method Evaluate(graph: Graph, expected: map<Id, set<Id>>, evidence: Evidence, files: Files, h: Hashing)
      returns (report: Option<Report>)
    ensures var st := Setting(graph, evidence, files, h);
            report.Some? <==>
              Valid(graph, expected, files) && EvidenceValid(evidence, Gates(st), Checks(st)) &&
              !Cyclic(LinksIn(st))
    ensures report.Some? ==> exists order :: IsReport(Setting(graph, evidence, files, h), order, report.value)
  {
    hide Valid, EvidenceValid, EachCheckOnce, IsReport, Gates, Checks, Topological, ChecksThere;
    var st := Setting(graph, evidence, files, h);
    if !Valid(graph, expected, files) { return None; }
    ValidIsClosed(st, expected);
    var ids := seq(|graph.gates|, i requires 0 <= i < |graph.gates| => graph.gates[i].id);
    IdsAreGates(st, ids);
    var sorted := TopologicalOrder(ids, LinksIn(st));
    if sorted.None? || !EvidenceValid(evidence, Gates(st), Checks(st)) { return None; }
    var made := ReportOn(st, sorted.value);
    assert IsReport(st, sorted.value, made);
    report := Some(made);
  }

  lemma AllListed(order: seq<Id>, results: Results, list: seq<GateResult>)
    requires (forall id :: id in order ==> id in results) && list == Listed(order, results)
    ensures (forall k :: 0 <= k < |list| ==> list[k].status.Passed?) <==> forall id :: id in order ==>
            results[id].status.Passed?
  {
    if forall k :: 0 <= k < |list| ==> list[k].status.Passed? {
      forall id | id in order ensures results[id].status.Passed? {
        var k :| 0 <= k < |order| && order[k] == id;
        assert list[k] == results[id];
      }
    }
  }

  lemma ValidIsClosed(st: Setting, expected: map<Id, set<Id>>)
    requires Valid(st.graph, expected, st.files)
    ensures Closed(LinksIn(st)) && EachCheckOnce(Gates(st), Checks(st))
    ensures ChecksThere(st)
  {
    hide GatesById, ChecksById, CheckValid, Exists, Unique, Blank, UniqueGates, UniqueChecks;
    forall g | g in LinksIn(st) ensures forall i :: 0 <= i < |LinksIn(st)[g]| ==> LinksIn(st)[g][i] in LinksIn(st) {
      assert GateValid(Gates(st)[g], Gates(st), Checks(st), expected, st.files);
      assert LinksIn(st)[g] == Gates(st)[g].dependsOn;
    }
  }

  lemma IdsAreGates(st: Setting, ids: seq<Id>)
    requires |ids| == |st.graph.gates| && forall i :: 0 <= i < |ids| ==> ids[i] == st.graph.gates[i].id
    ensures forall a :: a in ids <==> a in LinksIn(st)
  {
    GatesByIdHas(st.graph.gates);
    forall a ensures a in ids <==> a in Gates(st) {
      if a in Gates(st) {
        var i :| 0 <= i < |st.graph.gates| && st.graph.gates[i].id == a;
        assert ids[i] == a;
      }
    }
  }

  lemma StatesCover(st: Setting, states: map<Id, bool>, evidence: Evidence)
    requires States(st, states, Gates(st).Keys) && EachCheckOnce(Gates(st), Checks(st)) &&
             EvidenceValid(evidence, Gates(st), Checks(st))
    ensures forall f :: f in evidence.findings ==> forall c :: c in f.closureChecks ==> c in states
  {
    hide Gates, Checks, CleanIn;
    forall f | f in evidence.findings ensures forall c :: c in f.closureChecks ==> c in states {
      forall c | c in f.closureChecks ensures c in states {
        var g :| g in Gates(st) && c in Gates(st)[g].checks;
        assert g in Gates(st).Keys;
      }
    }
  }

  // ---- Readiness ----

  /** A release is ready exactly when every check of every gate is clean and no finding blocks it. */
  lemma ReadyIffAllClean(st: Setting, order: seq<Id>, report: Report)
    requires IsReport(st, order, report)
    ensures report.ready <==> report.openBlockers == [] && forall g :: g in Gates(st) ==> OwnClean(st, g)
  {
    hide ResultsUpTo, Gates, OwnClean, OpenBlockers, Topological;
    var results := ResultsUpTo(st, order, |order|);
    AlongIsEvaluated(st, order);
    GatesListed(st, order);
    if report.ready {
      forall g | g in Gates(st) ensures OwnClean(st, g) {
        assert g in order;
        PassedHere(st, results, g);
      }
    }
    if forall g :: g in Gates(st) ==> OwnClean(st, g) {
      forall id | id in order ensures results[id].status.Passed? {
        ReachedAreGates(st, order, id);
        PassedIffClosureClean(st, results, order, id);
      }
    }
  }

  lemma ReachedAreGates(st: Setting, order: seq<Id>, id: Id)
    requires Topological(LinksIn(st), order) && id in Gates(st)
    ensures forall a :: Reaches(LinksIn(st), id, a) ==> a in Gates(st)
  {
    hide Gates;
    ListedIsClosedAndAcyclic(LinksIn(st), order);
    forall a | Reaches(LinksIn(st), id, a) ensures a in Gates(st) {
      var p :| PathFrom(LinksIn(st), p, id, a);
      ClosedHoldsPath(LinksIn(st), LinksIn(st).Keys, p);
    }
  }

  /** After an observation that is not a pass, the release is not ready, whatever was recorded before. */
  lemma NotReadyAfter(st: Setting, o: Observation, order: seq<Id>, report: Report, g: Id)
    requires IsReport(Later(st, o), order, report) && !o.status.Passed?
    requires g in Gates(st) && o.check in Gates(st)[g].checks && o.check in Checks(st)
    ensures !report.ready
  {
    hide ResultsUpTo, Gates, Checks, OpenBlockers, Topological;
    SameGatesLater(st, o);
    AlongIsEvaluated(Later(st, o), order);
    GatesListed(Later(st, o), order);
    NotAPassIsNotHidden(st, o, ResultsUpTo(Later(st, o), order, |order|), g);
  }
}
