/**
 What a fingerprint fixes: if evidence is fresh in two settings, then everything its gate depends on is the
 same in both, down to the text of the files. The hash is taken to be one-to-one on bytes.
 */
module GateFingerprints {
  import opened Wrappers
  import opened GateOrder
  import opened GateText
  import opened GateEvaluation
  import opened GateResults
  import opened GateTheorems

  ghost predicate OneToOne(h: Hashing) {
    forall a, b :: h(a) == h(b) ==> a == b
  }

  // ---- The document is one-to-one ----

  lemma StringsInjective(a: seq<string>, b: seq<string>)
    requires Strings(a) == Strings(b)
    ensures a == b
  {
    assert |a| == |Strings(a).items| && |b| == |Strings(b).items|;
    forall i | 0 <= i < |a| ensures a[i] == b[i] {
      assert Strings(a).items[i] == String(a[i]) && Strings(b).items[i] == String(b[i]);
    }
  }

  /** Commands are compared by their texts. */
  lemma SameTextSameStrings(a: seq<string>, b: seq<string>)
    ensures Sorted(Strings(a)) == Sorted(Strings(b)) <==> a == b
  {
    if Sorted(Strings(a)) == Sorted(Strings(b)) {
      SortedIsInjective(Strings(a), Strings(b));
      StringsInjective(a, b);
    }
  }

  lemma GateJsonInjective(a: Gate, b: Gate)
    requires GateJson(a) == GateJson(b)
    ensures a == b
  {
    hide Strings;
    var m, n := GateJson(a).fields, GateJson(b).fields;
    assert m["id"] == n["id"] && m["title"] == n["title"] && m["owner"] == n["owner"];
    assert m["depends_on"] == n["depends_on"] && m["inputs"] == n["inputs"] && m["checks"] == n["checks"];
    StringsInjective(a.dependsOn, b.dependsOn);
    StringsInjective(a.inputs, b.inputs);
    StringsInjective(a.checks, b.checks);
  }

  lemma CheckFields(c: Check)
    ensures var m := CheckJson(c).fields;
            && "id" in m && "title" in m && "kind" in m && "files" in m
            && m["id"] == String(c.id) && m["title"] == String(c.title) && m["kind"] == String(KindName(c.kind)) &&
               m["files"] == Strings(c.files)
            && ("args" in m <==> c.args.Some?) && (c.args.Some? ==> m["args"] == Strings(c.args.value))
            && ("timeout_ms" in m <==> c.timeoutMs.Some?) &&
               (c.timeoutMs.Some? ==> m["timeout_ms"] == Number(c.timeoutMs.value))
            && ("independent_of" in m <==> c.independentOf.Some?)
            && (c.independentOf.Some? ==> m["independent_of"] == Strings(c.independentOf.value))
  {
    hide Strings, KindName;
  }

  lemma CheckJsonInjective(a: Check, b: Check)
    requires CheckJson(a) == CheckJson(b)
    ensures a == b
  {
    hide Strings, CheckJson;
    CheckFields(a);
    CheckFields(b);
    StringsInjective(a.files, b.files);
    if a.args.Some? { StringsInjective(a.args.value, b.args.value); }
    if a.independentOf.Some? { StringsInjective(a.independentOf.value, b.independentOf.value); }
    assert a.kind == b.kind by { assert KindName(a.kind) == KindName(b.kind); }
  }

  predicate GatesUnderIds(gates: map<Id, Gate>) {
    forall g :: g in gates ==> gates[g].id == g
  }

  predicate ChecksUnderIds(checks: map<Id, Check>) {
    forall c :: c in checks ==> checks[c].id == c
  }

  lemma GateListHas(gates: map<Id, Gate>, i: nat)
    requires i < |Ordered(gates.Keys)|
    ensures |GateList(gates).items| == |Ordered(gates.Keys)| && Ordered(gates.Keys)[i] in gates
    ensures GateList(gates).items[i] == GateJson(gates[Ordered(gates.Keys)[i]])
  {
    hide Ordered, GateJson;
    assert Ordered(gates.Keys)[i] in Ordered(gates.Keys);
  }

  lemma GateListWithin(a: map<Id, Gate>, b: map<Id, Gate>)
    requires GatesUnderIds(a) && GatesUnderIds(b) && GateList(a) == GateList(b)
    ensures forall g :: g in a ==> g in b && b[g] == a[g]
  {
    hide Ordered, GateJson, GateList;
    forall g | g in a ensures g in b && b[g] == a[g] {
      var ids := Ordered(a.Keys);
      assert g in a.Keys;
      var i :| 0 <= i < |ids| && ids[i] == g;
      GateListHas(a, i);
      if |Ordered(b.Keys)| > 0 { GateListHas(b, 0); } else { EmptyGateList(b); }
      GateListHas(b, i);
      GateJsonInjective(a[g], b[Ordered(b.Keys)[i]]);
    }
  }

  lemma EmptyGateList(gates: map<Id, Gate>)
    requires Ordered(gates.Keys) == []
    ensures GateList(gates).items == []
  {
  }

  lemma GateListInjective(a: map<Id, Gate>, b: map<Id, Gate>)
    requires GatesUnderIds(a) && GatesUnderIds(b) && GateList(a) == GateList(b)
    ensures a == b
  {
    hide GateList;
    GateListWithin(a, b);
    GateListWithin(b, a);
  }

  lemma CheckListHas(checks: map<Id, Check>, i: nat)
    requires i < |Ordered(checks.Keys)|
    ensures |CheckList(checks).items| == |Ordered(checks.Keys)| && Ordered(checks.Keys)[i] in checks
    ensures CheckList(checks).items[i] == CheckJson(checks[Ordered(checks.Keys)[i]])
  {
    hide Ordered, CheckJson;
    assert Ordered(checks.Keys)[i] in Ordered(checks.Keys);
  }

  lemma EmptyCheckList(checks: map<Id, Check>)
    requires Ordered(checks.Keys) == []
    ensures CheckList(checks).items == []
  {
  }

  lemma CheckListWithin(a: map<Id, Check>, b: map<Id, Check>)
    requires ChecksUnderIds(a) && ChecksUnderIds(b) && CheckList(a) == CheckList(b)
    ensures forall c :: c in a ==> c in b && b[c] == a[c]
  {
    hide Ordered, CheckJson, CheckList;
    forall c | c in a ensures c in b && b[c] == a[c] {
      var ids := Ordered(a.Keys);
      assert c in a.Keys;
      var i :| 0 <= i < |ids| && ids[i] == c;
      CheckListHas(a, i);
      if |Ordered(b.Keys)| > 0 { CheckListHas(b, 0); } else { EmptyCheckList(b); }
      CheckListHas(b, i);
      CheckJsonInjective(a[c], b[Ordered(b.Keys)[i]]);
    }
  }

  lemma CheckListInjective(a: map<Id, Check>, b: map<Id, Check>)
    requires ChecksUnderIds(a) && ChecksUnderIds(b) && CheckList(a) == CheckList(b)
    ensures a == b
  {
    hide CheckList;
    CheckListWithin(a, b);
    CheckListWithin(b, a);
  }

  /** Snapshots with one fingerprint are the same. */
  lemma SnapshotHashInjective(s: Snapshot, t: Snapshot, h: Hashing)
    requires OneToOne(h) && SnapshotHash(s, h) == SnapshotHash(t, h)
    requires GatesUnderIds(s.gates) && GatesUnderIds(t.gates) && ChecksUnderIds(s.checks) && ChecksUnderIds(t.checks)
    ensures s == t
  {
    hide GateList, CheckList, Sorted, Utf8;
    Utf8IsInjective(Sorted(SnapshotJson(s)), Sorted(SnapshotJson(t)));
    SortedIsInjective(SnapshotJson(s), SnapshotJson(t));
    var m, n := SnapshotJson(s).fields, SnapshotJson(t).fields;
    assert m["gates"] == n["gates"] && m["checks"] == n["checks"] && m["inputs"] == n["inputs"];
    GateListInjective(s.gates, t.gates);
    CheckListInjective(s.checks, t.checks);
    InputsInjective(s.inputs, t.inputs);
  }

  lemma InputsInjective(a: map<string, string>, b: map<string, string>)
    requires (map p | p in a :: String(a[p])) == (map p | p in b :: String(b[p]))
    ensures a == b
  {
    var m, n := map p | p in a :: String(a[p]), map p | p in b :: String(b[p]);
    forall p ensures p in a <==> p in b {
      assert p in a <==> p in m;
      assert p in b <==> p in n;
    }
    forall p | p in a ensures a[p] == b[p] {
      assert m[p] == String(a[p]) && n[p] == String(b[p]);
    }
  }

  // ---- Fresh evidence ----

  ghost function ClosureSnapshot(st: Setting, id: Id): Snapshot {
    SnapshotOf(st.graph, Closure(LinksIn(st), id), st.files, st.h)
  }

  /** A file that the gate's closure names: an input of one of its gates, or a file of one of their checks. */
  ghost predicate NamedIn(st: Setting, id: Id, path: string) {
    path in st.files && NamedBy(path, ClosureSnapshot(st, id).gates, ClosureSnapshot(st, id).checks)
  }

  lemma SnapshotHas(st: Setting, id: Id)
    ensures var s := ClosureSnapshot(st, id);
            && GatesUnderIds(s.gates) && ChecksUnderIds(s.checks)
            && (forall g :: g in s.gates <==> g in Closure(LinksIn(st), id))
            && (forall g :: g in s.gates ==> g in Gates(st) && s.gates[g] == Gates(st)[g])
            && (forall c :: c in s.checks <==> c in Checks(st) && exists g :: g in s.gates && c in s.gates[g].checks)
            && (forall c :: c in s.checks ==> s.checks[c] == Checks(st)[c])
            && (forall q :: q in s.inputs <==> NamedIn(st, id, q))
            && (forall q :: q in s.inputs ==> s.inputs[q] == SourceHash(st.files[q], st.h))
  {
    hide NamedBy, GatesById, ChecksById, Reaches;
    var s := ClosureSnapshot(st, id);
    forall g | g in s.gates ensures s.gates[g].id == g { GateIdIsItsKey(st.graph.gates, g); }
    forall c | c in s.checks ensures s.checks[c].id == c { CheckIdIsItsKey(st.graph.checks, c); }
  }

  lemma CheckIdIsItsKey(checks: seq<Check>, id: Id)
    requires id in ChecksById(checks)
    ensures ChecksById(checks)[id].id == id
  {
    ChecksByIdHas(checks);
  }

  /** The gate depends on the same gates in both settings, and each of them is the same. */
  ghost predicate SameGates(a: Setting, b: Setting, g: Id) {
    && Closure(LinksIn(a), g) == Closure(LinksIn(b), g)
    && forall d :: d in Closure(LinksIn(a), g) ==> d in Gates(a) && d in Gates(b) && Gates(a)[d] == Gates(b)[d]
  }

  ghost predicate SameChecks(a: Setting, b: Setting, g: Id) {
    forall d, e :: d in Closure(LinksIn(a), g) && d in Gates(a) && e in Gates(a)[d].checks ==> SameCheck(a, b, e)
  }

  ghost predicate SameCheck(a: Setting, b: Setting, e: Id) {
    (e in Checks(a) <==> e in Checks(b)) && (e in Checks(a) ==> Checks(a)[e] == Checks(b)[e])
  }

  /** The same files are named, and their contents agree but for the newlines of text. */
  ghost predicate SameFiles(a: Setting, b: Setting, g: Id) {
    && (forall q :: NamedIn(a, g, q) <==> NamedIn(b, g, q))
    && (forall q :: NamedIn(a, g, q) ==>
          q in a.files && q in b.files &&
          Normalised(a.files[q]) == Normalised(b.files[q]))
  }

  /**
   One observation is clean evidence for a check in two settings only if the check belongs to the same gate in
   both, and that gate's closure, the gates in it, their checks and the text of all the files they name are the same.
   */
  lemma FreshEvidenceFixesInputs(a: Setting, b: Setting, g: Id, k: Id, c: Id, o: Observation)
    requires OneToOne(a.h) && b.h == a.h
    requires g in Gates(a) && c in Gates(a)[g].checks && c in Checks(a)
    requires k in Gates(b) && c in Gates(b)[k].checks && c in Checks(b) && EachCheckOnce(Gates(b), Checks(b))
    requires Clean(Checks(a)[c], Some(o), Fingerprint(a, g), a.files, a.h)
    requires Clean(Checks(b)[c], Some(o), Fingerprint(b, k), b.files, b.h)
    ensures g == k && SameGates(a, b, g) && SameChecks(a, b, g) && SameFiles(a, b, g)
  {
    hide NamedIn, ClosureSnapshot, Closure, Gates, Checks, SnapshotHash, CleanRun, SameCommand, Intact, SameGates,
      SameChecks, SameFiles;
    FingerprintIs(a, g);
    FingerprintIs(b, k);
    SnapshotHas(a, g);
    SnapshotHas(b, k);
    SnapshotHashInjective(ClosureSnapshot(a, g), ClosureSnapshot(b, k), a.h);
    InItsClosure(a, g);
    assert g in ClosureSnapshot(a, g).gates && c in ClosureSnapshot(a, g).gates[g].checks;
    assert g == k;
    SnapshotFixesGates(a, b, g);
    SnapshotFixesChecks(a, b, g);
    SnapshotFixesFiles(a, b, g);
  }

  lemma SnapshotFixesGates(a: Setting, b: Setting, g: Id)
    requires ClosureSnapshot(a, g) == ClosureSnapshot(b, g)
    ensures SameGates(a, b, g)
  {
    hide NamedIn, ClosureSnapshot, Closure, Gates, Checks;
    SnapshotHas(a, g);
    SnapshotHas(b, g);
    forall d ensures d in Closure(LinksIn(a), g) <==> d in Closure(LinksIn(b), g) {
      assert d in ClosureSnapshot(a, g).gates <==> d in Closure(LinksIn(a), g);
    }
  }

  lemma SnapshotFixesChecks(a: Setting, b: Setting, g: Id)
    requires ClosureSnapshot(a, g) == ClosureSnapshot(b, g)
    ensures SameChecks(a, b, g)
  {
    hide NamedIn, ClosureSnapshot, Closure, Gates, Checks;
    SnapshotHas(a, g);
    SnapshotHas(b, g);
    var s := ClosureSnapshot(a, g);
    forall d, e | d in Closure(LinksIn(a), g) && d in Gates(a) && e in Gates(a)[d].checks ensures SameCheck(a, b, e) {
      assert d in s.gates && e in s.gates[d].checks;
      assert e in s.checks <==> e in Checks(a);
      assert e in s.checks <==> e in Checks(b);
    }
  }

  lemma SnapshotFixesFiles(a: Setting, b: Setting, g: Id)
    requires OneToOne(a.h) && b.h == a.h && ClosureSnapshot(a, g) == ClosureSnapshot(b, g)
    ensures SameFiles(a, b, g)
  {
    hide NamedIn, ClosureSnapshot, Closure, Gates, Checks, Normalised;
    SnapshotHas(a, g);
    SnapshotHas(b, g);
    var s := ClosureSnapshot(a, g);
    forall q ensures NamedIn(a, g, q) <==> NamedIn(b, g, q) {
      assert q in s.inputs <==> NamedIn(a, g, q);
      assert q in s.inputs <==> NamedIn(b, g, q);
    }
    forall q | NamedIn(a, g, q) ensures q in a.files && q in b.files &&
        Normalised(a.files[q]) == Normalised(b.files[q]) {
      assert q in s.inputs;
      NamedIsFile(a, g, q);
      NamedIsFile(b, g, q);
    }
  }

  lemma NamedIsFile(st: Setting, id: Id, q: string)
    requires NamedIn(st, id, q)
    ensures q in st.files
  {
  }

  lemma FingerprintIs(st: Setting, id: Id)
    ensures Fingerprint(st, id) == SnapshotHash(ClosureSnapshot(st, id), st.h)
  {
  }

  lemma InItsClosure(st: Setting, id: Id)
    requires id in Gates(st)
    ensures id in Closure(LinksIn(st), id)
  {
    hide Reaches;
    ReachesItself(LinksIn(st), id);
  }
}
