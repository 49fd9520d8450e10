/**
 The evaluation of the release gates: evidence is checked gate by gate, dependencies first, and anything
 missing, stale, failed or not independent leaves a reason; a gate with a reason is not passed.

 Hashing is a function of bytes. Paths name regular files, or directories with files in them.
 */
module GateEvaluation {
  import opened Wrappers
  import opened GateOrder
  import opened GateText

  // ---- Graph and evidence ----

  datatype CheckKind = NodeCheck | DenoCheck | ManualCheck

  datatype Check = Check(
    id: Id, title: string, kind: CheckKind, args: Option<seq<string>>, files: seq<string>, timeoutMs: Option<nat>,
    independentOf: Option<seq<string>>)

  datatype Gate = Gate(id: Id, title: string, owner: string, dependsOn: seq<Id>, inputs: seq<string>, checks: seq<Id>)

  datatype Graph = Graph(checks: seq<Check>, gates: seq<Gate>)

  datatype Status = Pending | Passed | Failed | Blocked | Skipped | OutOfDate

  datatype Observation = Observation(
    check: Id, status: Status, sourceHash: string, actor: string, summary: string, artifacts: seq<(string, string)>,
    exitCode: Option<int>, skipped: Option<nat>, command: Option<seq<string>>, runtime: Option<string>)

  datatype Finding = Finding(
    id: Id, gate: Id, owner: string, reproducer: string, blocking: bool, closed: bool, closureChecks: seq<Id>)

  datatype Evidence = Evidence(observations: seq<Observation>, findings: seq<Finding>)

  /** File contents by path. */
  type Files = map<string, seq<Byte>>

  datatype Snapshot = Snapshot(gates: map<Id, Gate>, checks: map<Id, Check>, inputs: map<string, string>)

  /** SHA-256 of bytes, in hexadecimal. */
  type Hashing = seq<Byte> -> string

  // ---- Lookup ----

  /** `new Map(gates.map(g => [g.id, g]))`: a later gate of the same id would win. */
  function GatesById(gates: seq<Gate>): map<Id, Gate> {
    if gates == [] then map[] else GatesById(gates[..|gates| - 1])[gates[|gates| - 1].id := gates[|gates| - 1]]
  }

  function ChecksById(checks: seq<Check>): map<Id, Check> {
    if checks == [] then map[] else ChecksById(checks[..|checks| - 1])[checks[|checks| - 1].id := checks[|checks| - 1]]
  }

  function LinksOf(gates: map<Id, Gate>): Links {
    map id | id in gates :: gates[id].dependsOn
  }

  predicate UniqueGates(gates: seq<Gate>) {
    forall i, j :: 0 <= i < j < |gates| ==> gates[i].id != gates[j].id
  }

  predicate UniqueChecks(checks: seq<Check>) {
    forall i, j :: 0 <= i < j < |checks| ==> checks[i].id != checks[j].id
  }

  lemma {:induction false} GatesByIdHas(gates: seq<Gate>)
    ensures forall i :: 0 <= i < |gates| ==> gates[i].id in GatesById(gates)
    ensures forall id :: id in GatesById(gates) ==>
              exists i :: 0 <= i < |gates| && gates[i].id == id && GatesById(gates)[id] == gates[i]
  {
    if gates != [] {
      var before, last := gates[..|gates| - 1], gates[|gates| - 1];
      GatesByIdHas(before);
      forall i | 0 <= i < |gates| ensures gates[i].id in GatesById(gates) {
        if i < |before| { assert before[i] == gates[i]; }
      }
      forall id | id in GatesById(gates)
        ensures exists i :: 0 <= i < |gates| && gates[i].id == id && GatesById(gates)[id] == gates[i]
      {
        if id == last.id { assert gates[|gates| - 1].id == id; }
        else {
          var i :| 0 <= i < |before| && before[i].id == id && GatesById(before)[id] == before[i];
          assert gates[i] == before[i];
        }
      }
    }
  }

  lemma {:induction false} ChecksByIdHas(checks: seq<Check>)
    ensures forall i :: 0 <= i < |checks| ==> checks[i].id in ChecksById(checks)
    ensures forall id :: id in ChecksById(checks) ==> exists i ::
              0 <= i < |checks| && checks[i].id == id &&
              ChecksById(checks)[id] == checks[i]
  {
    if checks != [] {
      var before, last := checks[..|checks| - 1], checks[|checks| - 1];
      ChecksByIdHas(before);
      forall i | 0 <= i < |checks| ensures checks[i].id in ChecksById(checks) {
        if i < |before| { assert before[i] == checks[i]; }
      }
      forall id | id in ChecksById(checks) ensures exists i ::
        0 <= i < |checks| && checks[i].id == id &&
        ChecksById(checks)[id] == checks[i] {
        if id == last.id { assert checks[|checks| - 1].id == id; }
        else {
          var i :| 0 <= i < |before| && before[i].id == id && ChecksById(before)[id] == before[i];
          assert checks[i] == before[i];
        }
      }
    }
  }

  // ---- Validation ----

  /** What JavaScript's `trim` removes and `\s` matches. */
  predicate IsSpace(c: char) {
    || '\t' <= c <= '\r' || c == ' ' || c == '\U{00a0}' || c == '\U{1680}' || '\U{2000}' <= c <= '\U{200a}'
    || c == '\U{2028}' || c == '\U{2029}' || c == '\U{202f}' || c == '\U{205f}' || c == '\U{3000}' || c == '\U{feff}'
  }

  predicate Blank(s: string) {
    forall i :: 0 <= i < |s| ==> IsSpace(s[i])
  }

  /** The source's `unique`: nonempty strings, no two the same. */
  predicate Unique(values: seq<string>) {
    && (forall i :: 0 <= i < |values| ==> !Blank(values[i]))
    && (forall i, j :: 0 <= i < j < |values| ==> values[i] != values[j])
  }

  predicate IsLowerLetter(c: char) { 'a' <= c <= 'z' }

  /** A letter, then at least one letter, digit or hyphen. */
  predicate IsCheckId(id: Id) {
    && |id| >= 2 && IsLowerLetter(id[0])
    && forall i :: 1 <= i < |id| ==> IsLowerLetter(id[i]) || '0' <= id[i] <= '9' || id[i] == '-'
  }

  predicate IsHexHash(s: string) {
    |s| == 64 && forall i :: 0 <= i < |s| ==> '0' <= s[i] <= '9' || 'a' <= s[i] <= 'f'
  }

  /** No NUL, and no pattern that would hide which files are run. */
  predicate IsPlainArgument(arg: string) {
    forall i :: 0 <= i < |arg| ==> arg[i] != '\0' && arg[i] != '*' && arg[i] != '?'
  }

  /** `path` is a file, or a directory with files in it. */
  predicate Exists(files: Files, path: string) {
    path in files || exists q :: q in files && Below(q, path)
  }

  predicate Below(q: string, path: string) {
    |path| < |q| && q[..|path|] == path && q[|path|] == '/'
  }

  /** The structural rules of a release graph. `expected` is the plan's table of gates and their dependencies. */
  predicate Valid(graph: Graph, expected: map<Id, set<Id>>, files: Files) {
    && UniqueGates(graph.gates) && UniqueChecks(graph.checks)
    && (forall i :: 0 <= i < |graph.gates| ==> !Blank(graph.gates[i].id))
    && GatesById(graph.gates).Keys == expected.Keys
    && ChecksValid(ChecksById(graph.checks), files)
    && GatesValid(GatesById(graph.gates), ChecksById(graph.checks), expected, files)
    && EachCheckOnce(GatesById(graph.gates), ChecksById(graph.checks))
  }

  predicate ChecksValid(checks: map<Id, Check>, files: Files) {
    forall c :: c in checks ==> CheckValid(checks[c], files)
  }

  predicate GatesValid(gates: map<Id, Gate>, checks: map<Id, Check>, expected: map<Id, set<Id>>, files: Files) {
    forall g :: g in gates ==> GateValid(gates[g], gates, checks, expected, files)
  }

  /** No check belongs to two gates, and none to no gate. */
  predicate EachCheckOnce(gates: map<Id, Gate>, checks: map<Id, Check>) {
    && (forall g, h, c :: g in gates && h in gates && c in gates[g].checks && c in gates[h].checks ==> g == h)
    && (forall c :: c in checks ==> exists g :: g in gates && c in gates[g].checks)
  }

  predicate CheckValid(check: Check, files: Files) {
    && IsCheckId(check.id) && !Blank(check.title)
    && Unique(check.files) && check.files != [] && (forall f :: f in check.files ==> f in files)
    && (if check.kind.ManualCheck? then check.args.None?
        else
          && check.args.Some? && check.args.value != [] && (forall a :: a in check.args.value ==> IsPlainArgument(a))
          && (check.timeoutMs.Some? ==> 0 < check.timeoutMs.value <= 1800000))
    && (check.independentOf.Some? ==> Unique(check.independentOf.value))
  }

  predicate GateValid(gate: Gate, gates: map<Id, Gate>, checks: map<Id, Check>, expected: map<Id, set<Id>>,
                      files: Files) {
    && !Blank(gate.title) && !Blank(gate.owner)
    && Unique(gate.dependsOn) && Unique(gate.inputs) && Unique(gate.checks)
    && gate.inputs != [] && gate.checks != []
    && (forall d :: d in gate.dependsOn ==> d in gates && d != gate.id)
    && gate.id in expected && (set d | d in gate.dependsOn) == expected[gate.id]
    && (forall p :: p in gate.inputs ==> Exists(files, p))
    && (forall c :: c in gate.checks ==> c in checks)
  }

  predicate EvidenceValid(evidence: Evidence, gates: map<Id, Gate>, checks: map<Id, Check>) {
    && (forall o :: o in evidence.observations ==> o.check in checks && ObservationValid(o))
    && (forall i :: 0 <= i < |evidence.findings| ==> !Blank(evidence.findings[i].id))
    && (forall i, j :: 0 <= i < j < |evidence.findings| ==> evidence.findings[i].id != evidence.findings[j].id)
    && (forall f :: f in evidence.findings ==>
          f.gate in gates && FindingValid(f) &&
          forall c :: c in f.closureChecks ==> c in checks)
  }

  predicate ObservationValid(o: Observation) {
    !o.status.OutOfDate? && IsHexHash(o.sourceHash) && !Blank(o.actor) && !Blank(o.summary)
  }

  predicate FindingValid(f: Finding) {
    !Blank(f.owner) && !Blank(f.reproducer) && Unique(f.closureChecks) && (f.closed ==> f.closureChecks != [])
  }

  // ---- Fingerprints ----

  ghost function Closure(links: Links, id: Id): set<Id> {
    set a | a in links && Reaches(links, id, a)
  }

  predicate Ignored(segment: string) {
    segment == "node_modules" || segment == ".git"
  }

  /** The path's segments from here on, `current` being read already, are none that a directory walk leaves out. */
  predicate Walked(rest: string, current: string) {
    if rest == [] then !Ignored(current)
    else if rest[0] == '/' then !Ignored(current) && Walked(rest[1..], "")
    else Walked(rest[1..], current + [rest[0]])
  }

  /** `q` is a file that input `path` stands for. */
  predicate StandsFor(path: string, q: string) {
    q == path || (Below(q, path) && Walked(q[|path| + 1..], ""))
  }

  predicate NamedBy(q: string, gates: map<Id, Gate>, checks: map<Id, Check>) {
    || (exists g, p :: g in gates && p in gates[g].inputs && StandsFor(p, q))
    || (exists c, p :: c in checks && p in checks[c].files && StandsFor(p, q))
  }

  /** What a fingerprint covers: some gates, their checks, and all files that either name. */
  function SnapshotOf(graph: Graph, ids: set<Id>, files: Files, h: Hashing): Snapshot {
    var all := GatesById(graph.gates);
    var allChecks := ChecksById(graph.checks);
    var gates := map g | g in all && g in ids :: all[g];
    var checks := map c | c in allChecks && exists g :: g in gates && c in gates[g].checks :: allChecks[c];
    Snapshot(gates, checks, map q | q in files && NamedBy(q, gates, checks) :: SourceHash(files[q], h))
  }

  /** Text is hashed with its newlines made uniform. */
  function SourceHash(contents: seq<Byte>, h: Hashing): string {
    h(Normalised(contents))
  }

  // The document that is hashed: gates and checks in the order of their ids, files by path.

  function Strings(values: seq<string>): Json {
    Array(seq(|values|, i requires 0 <= i < |values| => String(values[i])))
  }

  function GateJson(g: Gate): Json {
    Object(map["id" := String(g.id), "title" := String(g.title), "owner" := String(g.owner), "required" := Bool(true),
               "depends_on" := Strings(g.dependsOn), "inputs" := Strings(g.inputs), "checks" := Strings(g.checks)])
  }

  function KindName(kind: CheckKind): string {
    match kind case NodeCheck => "node" case DenoCheck => "deno" case ManualCheck => "manual"
  }

  function CheckJson(c: Check): Json {
    Object(map["id" := String(c.id), "title" := String(c.title), "kind" := String(KindName(c.kind)),
        "files" := Strings(c.files)] +
           (if c.args.Some? then map["args" := Strings(c.args.value)] else map[]) +
           (if c.timeoutMs.Some? then map["timeout_ms" := Number(c.timeoutMs.value)] else map[]) +
           (if c.independentOf.Some? then map["independent_of" := Strings(c.independentOf.value)] else map[]))
  }

  function GateList(gates: map<Id, Gate>): Json {
    var ids := Ordered(gates.Keys);
    Array(seq(|ids|, i requires 0 <= i < |ids| => assert ids[i] in ids; GateJson(gates[ids[i]])))
  }

  function CheckList(checks: map<Id, Check>): Json {
    var ids := Ordered(checks.Keys);
    Array(seq(|ids|, i requires 0 <= i < |ids| => assert ids[i] in ids; CheckJson(checks[ids[i]])))
  }

  function SnapshotJson(s: Snapshot): Json {
    Object(map["version" := Number(1), "release" := String("DTP-0.4"), "gates" := GateList(s.gates),
        "checks" := CheckList(s.checks),
               "inputs" := Object(map p | p in s.inputs :: String(s.inputs[p]))])
  }

  /** The hash of the document's text. */
  function SnapshotHash(s: Snapshot, h: Hashing): string {
    h(Utf8(Sorted(SnapshotJson(s))))
  }

  ghost function FingerprintOf(graph: Graph, id: Id, files: Files, h: Hashing): string {
    SnapshotHash(SnapshotOf(graph, Closure(LinksOf(GatesById(graph.gates)), id), files, h), h)
  }

  class ClosureWalk {
    const links: Links
    var included: set<Id>

    constructor (links: Links)
      ensures this.links == links && included == {}
    {
      this.links, included := links, {};
    }

    /** Adds a gate and all it depends on; those whose visit is under way are in `included` already. */
    method Include(id: Id, ghost root: Id, ghost open: set<Id>)
      requires Closed(links) && id in links && Reaches(links, root, id)
      requires included <= links.Keys && open <= included
      requires forall a :: a in included ==> Reaches(links, root, a)
      requires forall a, b :: a in included && a !in open && b in links[a] ==> b in included
      modifies this`included
      ensures old(included) <= included <= links.Keys && id in included
      ensures forall a :: a in included ==> Reaches(links, root, a)
      ensures forall a, b :: a in included && a !in open && b in links[a] ==> b in included
      decreases links.Keys - included
    {
      if id in included { return; }
      included := included + {id};
      ghost var under := open + {id};
      var deps := links[id];
      for i := 0 to |deps|
        invariant old(included) + {id} <= included <= links.Keys && under <= included
        invariant forall a :: a in included ==> Reaches(links, root, a)
        invariant forall a, b :: a in included && a !in under && b in links[a] ==> b in included
        invariant forall k :: 0 <= k < i ==> deps[k] in included
      {
        assert deps[i] in links by { assert links[id][i] in links; }
        ReachesOneMore(links, root, id, deps[i]);
        Include(deps[i], root, under);
      }
      forall a, b | a in included && a !in open && b in links[a] ensures b in included {
        if a == id { var k :| 0 <= k < |deps| && deps[k] == b; }
      }
    }
  }

  lemma ReachesOneMore(links: Links, a: Id, b: Id, c: Id)
    requires Reaches(links, a, b) && b in links && c in links[b]
    ensures Reaches(links, a, c)
  {
    var p :| PathFrom(links, p, a, b);
    PathThenStep(links, p, c);
    assert PathFrom(links, p + [c], a, c);
  }

  /** A set closed under dependencies holds whatever its members reach. */
  lemma {:induction false} ClosedHoldsPath(links: Links, s: set<Id>, p: seq<Id>)
    requires IsPath(links, p) && p[0] in s && forall a, b :: a in s && a in links && b in links[a] ==> b in s
    ensures p[|p| - 1] in s
  {
    if |p| > 1 {
      PathSuffix(links, p, 1);
      ClosedHoldsPath(links, s, p[1..]);
    }
  }

  /** The recursive walk includes exactly the dependency closure, shared dependencies and all. */
  method ClosureOf(links: Links, id: Id) returns (included: set<Id>)
    requires Closed(links) && id in links
    ensures included == Closure(links, id)
  {
    var walk := new ClosureWalk(links);
    ReachesItself(links, id);
    walk.Include(id, id, {});
    included := walk.included;
    forall a | a in Closure(links, id) ensures a in included {
      var p :| PathFrom(links, p, id, a);
      ClosedHoldsPath(links, included, p);
    }
  }

  method GateFingerprint(graph: Graph, id: Id, files: Files, h: Hashing) returns (fingerprint: string)
    requires Closed(LinksOf(GatesById(graph.gates))) && id in GatesById(graph.gates)
    ensures fingerprint == FingerprintOf(graph, id, files, h)
  {
    var included := ClosureOf(LinksOf(GatesById(graph.gates)), id);
    fingerprint := SnapshotHash(SnapshotOf(graph, included, files, h), h);
  }
}
