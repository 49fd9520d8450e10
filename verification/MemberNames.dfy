/**
 The producer-side walk over an in-memory value (`assertSafeMemberNames`): a worklist over an object
 graph that may be shared or cyclic, against reachability, and against the printer on tree-shaped values.
 */
module MemberNames {
  import opened JsonGrammar
  import C = Canonical

  /** A value as it sits in memory: a reference to an array or object, or anything else. */
  datatype JsRef = Plain(value: C.JsValue) | Ref(id: nat)

  datatype Slot = Slot(name: Text, value: JsRef)

  datatype Node = ArrayNode(items: seq<JsRef>) | ObjectNode(slots: seq<Slot>)

  type Heap = map<nat, Node>

  function Children(node: Node): (r: seq<JsRef>)
    ensures node.ObjectNode? ==> |r| == |node.slots| && forall k :: 0 <= k < |r| ==> r[k] == node.slots[k].value
  {
    match node
    case ArrayNode(items) => items
    case ObjectNode(slots) => seq(|slots|, k requires 0 <= k < |slots| => slots[k].value)
  }

  /** References do not dangle. */
  predicate Closed(heap: Heap, r: JsRef) {
    && (r.Ref? ==> r.id in heap)
    && forall id, k :: id in heap && 0 <= k < |Children(heap[id])| && Children(heap[id])[k].Ref? ==>
       Children(heap[id])[k].id in heap
  }

  predicate Clean(node: Node) {
    node.ObjectNode? ==> forall k :: 0 <= k < |node.slots| ==> C.SafeName(node.slots[k].name)
  }

  /** `to` is `n` references away from `from`. */
  ghost predicate Reaches(heap: Heap, from: JsRef, to: JsRef, n: nat)
    decreases n
  {
    if n == 0 then from == to
    else from.Ref? && from.id in heap && exists c :: c in Children(heap[from.id]) && Reaches(heap, c, to, n - 1)
  }

  ghost predicate Reachable(heap: Heap, from: JsRef, to: JsRef) {
    exists n: nat :: Reaches(heap, from, to, n)
  }

  ghost predicate UnsafeReachable(heap: Heap, from: JsRef) {
    exists id :: id in heap && Reachable(heap, from, Ref(id)) && !Clean(heap[id])
  }

  lemma {:induction false} ReachOn(heap: Heap, from: JsRef, mid: JsRef, to: JsRef, n: nat)
    requires Reaches(heap, from, mid, n) && mid.Ref? && mid.id in heap && to in Children(heap[mid.id])
    ensures Reaches(heap, from, to, n + 1)
    decreases n
  {
    if n == 0 {
      assert Reaches(heap, to, to, 0);
    } else {
      var c :| c in Children(heap[from.id]) && Reaches(heap, c, mid, n - 1);
      ReachOn(heap, c, mid, to, n - 1);
    }
  }

  /** Everything seen is clean and everything next to it is seen or still pending. */
  ghost predicate Swept(heap: Heap, seen: set<nat>, pending: seq<JsRef>) {
    forall id :: id in seen ==>
      id in heap && Clean(heap[id]) && forall c :: c in Children(heap[id]) ==> Covered(c, seen, pending)
  }

  ghost predicate Covered(r: JsRef, seen: set<nat>, pending: seq<JsRef>) {
    r.Plain? || r.id in seen || r in pending
  }

  lemma {:induction false} SweptReaches(heap: Heap, seen: set<nat>, from: JsRef, to: JsRef, n: nat)
    requires Swept(heap, seen, []) && Covered(from, seen, []) && Reaches(heap, from, to, n)
    ensures Covered(to, seen, [])
    decreases n
  {
    if n > 0 {
      var c :| c in Children(heap[from.id]) && Reaches(heap, c, to, n - 1);
      SweptReaches(heap, seen, c, to, n - 1);
    }
  }

  /** Looks at the names of an object in turn, pushing each value after its name has passed. */
  method PushMembers(slots: seq<Slot>, before: seq<JsRef>) returns (pending: seq<JsRef>, ok: bool)
    ensures ok <==> Clean(ObjectNode(slots))
    ensures ok ==> pending == before + Children(ObjectNode(slots))
  {
    pending := before;
    for k := 0 to |slots|
      invariant forall i :: 0 <= i < k ==> C.SafeName(slots[i].name)
      invariant pending == before + Children(ObjectNode(slots))[..k]
    {
      ok := C.CheckName(slots[k].name);
      if !ok {
        return;
      }
      pending := pending + [slots[k].value];
    }
    ok := true;
  }

  /** One sweep step: taking `id` off the worklist, marking it seen and pushing its children keeps the sweep. */
  lemma SweepObject(heap: Heap, seen: set<nat>, pending: seq<JsRef>, id: nat)
    requires Swept(heap, seen, pending + [Ref(id)]) && id in heap && Clean(heap[id])
    ensures Swept(heap, seen + {id}, pending + Children(heap[id]))
  {
    var more := pending + Children(heap[id]);
    forall i, c | i in seen + {id} && c in Children(heap[i]) ensures Covered(c, seen + {id}, more) {
      if i != id { assert Covered(c, seen, pending + [Ref(id)]); }
    }
  }

  lemma SweepNothing(heap: Heap, seen: set<nat>, pending: seq<JsRef>, r: JsRef)
    requires Swept(heap, seen, pending + [r]) && (r.Plain? || r.id in seen)
    ensures Swept(heap, seen, pending)
  {
    forall i, c | i in seen && c in Children(heap[i]) ensures Covered(c, seen, pending) {
      assert Covered(c, seen, pending + [r]);
    }
  }

  /**
   The walk ends on every graph, cyclic ones included, and refuses exactly when it can reach an object with an
   unsafe name.
   */
  method AssertSafeMemberNames(heap: Heap, value: JsRef) returns (refused: bool)
    requires Closed(heap, value)
    ensures refused <==> UnsafeReachable(heap, value)
  {
    var pending := [value];
    var seen: set<nat> := {};
    assert Reaches(heap, value, value, 0);
    while pending != []
      invariant seen <= heap.Keys
      invariant forall r :: r in pending ==> Reachable(heap, value, r) && (r.Ref? ==> r.id in heap)
      invariant Swept(heap, seen, pending) && Covered(value, seen, pending)
      decreases heap.Keys - seen, |pending|
    {
      var current := pending[|pending| - 1];
      ghost var before := pending;
      assert current in pending;
      pending := pending[..|pending| - 1];
      assert before == pending + [current];
      if current.Plain? || current.id in seen {
        SweepNothing(heap, seen, pending, current);
        continue;
      }
      SeenGrows(heap, seen, current.id);
      seen := seen + {current.id};
      var node := heap[current.id];
      ReachChildren(heap, value, current);
      var ok := true;
      ghost var rest := pending;
      if node.ArrayNode? {
        pending := pending + node.items;
      } else {
        pending, ok := PushMembers(node.slots, pending);
      }
      if !ok {
        return true;
      }
      SweepObject(heap, seen - {current.id}, rest, current.id);
      assert seen - {current.id} + {current.id} == seen;
    }
    forall id | id in heap && Reachable(heap, value, Ref(id)) ensures Clean(heap[id]) {
      var n: nat :| Reaches(heap, value, Ref(id), n);
      SweptReaches(heap, seen, value, Ref(id), n);
    }
    return false;
  }

  lemma SeenGrows(heap: Heap, seen: set<nat>, id: nat)
    requires id in heap && id !in seen
    ensures heap.Keys - (seen + {id}) < heap.Keys - seen
  {
    assert id in heap.Keys - seen;
  }

  lemma ReachChildren(heap: Heap, value: JsRef, r: JsRef)
    requires Closed(heap, value) && r.Ref? && r.id in heap && Reachable(heap, value, r)
    ensures forall c :: c in Children(heap[r.id]) ==> Reachable(heap, value, c) && (c.Ref? ==> c.id in heap)
  {
    forall c | c in Children(heap[r.id]) ensures Reachable(heap, value, c) {
      var n: nat :| Reaches(heap, value, r, n);
      ReachOn(heap, value, r, c, n);
    }
  }

  // ---- Tree-shaped values ----

  /** The reference `r` stands for the value `v`. */
  ghost predicate Denotes(heap: Heap, r: JsRef, v: C.JsValue)
    decreases v
  {
    match v
    case Array(items) =>
      && r.Ref? && r.id in heap && heap[r.id].ArrayNode? && |heap[r.id].items| == |items|
      && forall k :: 0 <= k < |items| ==> Denotes(heap, heap[r.id].items[k], items[k])
    case Object(ms) =>
      && r.Ref? && r.id in heap && heap[r.id].ObjectNode? && |heap[r.id].slots| == |ms|
      && forall k :: 0 <= k < |ms| ==>
           heap[r.id].slots[k].name == ms[k].name &&
           Denotes(heap, heap[r.id].slots[k].value, ms[k].value)
    case _ => r.Plain?
  }

  ghost predicate HasUnsafeName(v: C.JsValue) {
    match v
    case Array(items) => exists k :: 0 <= k < |items| && HasUnsafeName(items[k])
    case Object(ms) => exists k :: 0 <= k < |ms| && (!C.SafeName(ms[k].name) || HasUnsafeName(ms[k].value))
    case _ => false
  }

  lemma {:induction false} UnsafeIsReached(heap: Heap, r: JsRef, v: C.JsValue) returns (id: nat, n: nat)
    requires Denotes(heap, r, v) && HasUnsafeName(v)
    ensures id in heap && !Clean(heap[id]) && Reaches(heap, r, Ref(id), n)
    decreases v
  {
    match v {
      case Array(items) =>
        var k :| 0 <= k < |items| && HasUnsafeName(items[k]);
        id, n := UnsafeIsReached(heap, heap[r.id].items[k], items[k]);
        assert heap[r.id].items[k] in Children(heap[r.id]);
        n := n + 1;
      case Object(ms) =>
        var k :| 0 <= k < |ms| && (!C.SafeName(ms[k].name) || HasUnsafeName(ms[k].value));
        if !C.SafeName(ms[k].name) {
          assert heap[r.id].slots[k].name == ms[k].name;
          id, n := r.id, 0;
        } else {
          id, n := UnsafeIsReached(heap, heap[r.id].slots[k].value, ms[k].value);
          assert Children(heap[r.id])[k] in Children(heap[r.id]);
          n := n + 1;
        }
    }
  }

  lemma {:induction false} ReachedIsUnsafe(heap: Heap, r: JsRef, v: C.JsValue, id: nat, n: nat)
    requires Denotes(heap, r, v) && id in heap && !Clean(heap[id]) && Reaches(heap, r, Ref(id), n)
    ensures HasUnsafeName(v)
    decreases n
  {
    hide Denotes, Clean;
    if n == 0 {
      UncleanIsUnsafe(heap, id, v);
    } else {
      var c :| c in Children(heap[r.id]) && Reaches(heap, c, Ref(id), n - 1);
      hide Reaches;
      var k := ChildDenotes(heap, r.id, v, c);
      if v.Array? {
        ReachedIsUnsafe(heap, c, v.items[k], id, n - 1);
      } else {
        ReachedIsUnsafe(heap, c, v.members[k].value, id, n - 1);
      }
    }
  }

  lemma UncleanIsUnsafe(heap: Heap, id: nat, v: C.JsValue)
    requires Denotes(heap, Ref(id), v) && id in heap && !Clean(heap[id])
    ensures HasUnsafeName(v)
  {
    hide C.SafeName;
    var k :| 0 <= k < |heap[id].slots| && !C.SafeName(heap[id].slots[k].name);
    assert heap[id].slots[k].name == v.members[k].name;
  }

  lemma ChildDenotes(heap: Heap, id: nat, v: C.JsValue, c: JsRef) returns (k: nat)
    requires Denotes(heap, Ref(id), v) && id in heap && c in Children(heap[id])
    ensures v.Array? ==> k < |v.items| && Denotes(heap, c, v.items[k])
    ensures !v.Array? ==> v.Object? && k < |v.members| && Denotes(heap, c, v.members[k].value)
  {
    k :| 0 <= k < |Children(heap[id])| && Children(heap[id])[k] == c;
  }

  /** On a tree-shaped value, reaching an unsafe name is having one. */
  lemma UnsafeReachableIsUnsafe(heap: Heap, r: JsRef, v: C.JsValue)
    requires Denotes(heap, r, v)
    ensures UnsafeReachable(heap, r) <==> HasUnsafeName(v)
  {
    if UnsafeReachable(heap, r) {
      var id :| id in heap && Reachable(heap, r, Ref(id)) && !Clean(heap[id]);
      var n: nat :| Reaches(heap, r, Ref(id), n);
      ReachedIsUnsafe(heap, r, v, id, n);
    }
    if HasUnsafeName(v) {
      var id, n := UnsafeIsReached(heap, r, v);
      assert Reachable(heap, r, Ref(id));
    }
  }

  // ---- Against the printer ----

  /** No member is undefined, so the printer drops nothing. */
  ghost predicate UndefinedFree(v: C.JsValue) {
    match v
    case Array(items) => forall k :: 0 <= k < |items| ==> UndefinedFree(items[k])
    case Object(ms) => forall k :: 0 <= k < |ms| ==> !ms[k].value.Undefined? && UndefinedFree(ms[k].value)
    case _ => true
  }

  /** The printer finds nothing wrong with the value except, perhaps, names that need an escape. */
  ghost predicate PrintableButNames(v: C.JsValue) {
    match v
    case Number(n) => C.CheckedNumber(n).Ok?
    case String(s) => !C.HasLoneSurrogate(s)
    case BigInt => false
    case Unsupported => false
    case Array(items) => forall k :: 0 <= k < |items| ==> PrintableButNames(items[k])
    case Object(ms) => forall k :: 0 <= k < |ms| ==> !C.HasLoneSurrogate(ms[k].name) && PrintableButNames(ms[k].value)
    case _ => true
  }

  /** What the printer refuses a name for is what the walk refuses. */
  lemma {:induction false} RefusedNameIsUnsafe(v: C.JsValue)
    requires C.Serialize(v) == C.Err(C.UnsafeName)
    ensures HasUnsafeName(v)
    decreases v, 1, 0
  {
    match v {
      case Array(items) =>
        var k := RefusedItem(v, items);
      case Object(ms) =>
        var m := RefusedMember(v, C.Entries(ms));
        var k :| 0 <= k < |ms| && ms[k] == m;
    }
  }

  lemma {:induction false} RefusedItem(owner: C.JsValue, items: seq<C.JsValue>) returns (k: nat)
    requires C.SerializeItems.requires(owner, items) && C.SerializeItems(owner, items) == C.Err(C.UnsafeName)
    ensures k < |items| && HasUnsafeName(items[k])
    decreases owner, 0, |items|
  {
    assert items[0] in owner.items;
    if C.Serialize(items[0]).Err? {
      RefusedNameIsUnsafe(items[0]);
      k := 0;
    } else {
      k := RefusedItem(owner, items[1..]);
      k := k + 1;
    }
  }

  lemma {:induction false} RefusedMember(owner: C.JsValue, ms: seq<C.JsMember>) returns (m: C.JsMember)
    requires C.SerializeMembers.requires(owner, ms) && C.SerializeMembers(owner, ms) == C.Err(C.UnsafeName)
    ensures m in ms && (!C.SafeName(m.name) || HasUnsafeName(m.value))
    decreases owner, 0, |ms|
  {
    assert ms[0] in owner.members;
    if !C.SafeName(ms[0].name) {
      m := ms[0];
    } else if C.Serialize(ms[0].value).Err? {
      RefusedNameIsUnsafe(ms[0].value);
      m := ms[0];
    } else {
      m := RefusedMember(owner, ms[1..]);
    }
  }

  /**
   A value that is printable but for its names, with nothing to drop, is refused for a name exactly when it has
   an unsafe one.
   */
  lemma {:induction false} PrinterRefusesUnsafe(v: C.JsValue)
    requires UndefinedFree(v) && PrintableButNames(v)
    ensures if HasUnsafeName(v) then C.Serialize(v) == C.Err(C.UnsafeName) else C.Serialize(v).Ok?
    decreases v, 1, 0
  {
    match v {
      case Array(items) => PrinterRefusesItems(v, items);
      case Object(ms) =>
        var es := C.Entries(ms);
        PrinterRefusesMembers(v, es);
        if HasUnsafeName(v) {
          var k :| 0 <= k < |ms| && (!C.SafeName(ms[k].name) || HasUnsafeName(ms[k].value));
          assert ms[k] in es;
        }
      case _ =>
    }
  }

  lemma {:induction false} PrinterRefusesItems(owner: C.JsValue, items: seq<C.JsValue>)
    requires C.SerializeItems.requires(owner, items) && UndefinedFree(owner) && PrintableButNames(owner)
    ensures if exists k :: 0 <= k < |items| && HasUnsafeName(items[k])
            then C.SerializeItems(owner, items) == C.Err(C.UnsafeName)
            else C.SerializeItems(owner, items).Ok?
    decreases owner, 0, |items|
  {
    if items != [] {
      assert items[0] in owner.items;
      PrinterRefusesUnsafe(items[0]);
      PrinterRefusesItems(owner, items[1..]);
      if k :| 0 <= k < |items| && HasUnsafeName(items[k]) {
        if k > 0 { assert items[1..][k - 1] == items[k]; }
      }
    }
  }

  lemma {:induction false} PrinterRefusesMembers(owner: C.JsValue, ms: seq<C.JsMember>)
    requires C.SerializeMembers.requires(owner, ms) && UndefinedFree(owner) && PrintableButNames(owner)
    ensures if exists m :: m in ms && (!C.SafeName(m.name) || HasUnsafeName(m.value))
            then C.SerializeMembers(owner, ms) == C.Err(C.UnsafeName)
            else C.SerializeMembers(owner, ms).Ok?
    decreases owner, 0, |ms|
  {
    if ms != [] {
      assert ms[0] in owner.members;
      PrinterRefusesUnsafe(ms[0].value);
      PrinterRefusesMembers(owner, ms[1..]);
      assert ms == [ms[0]] + ms[1..];
    }
  }

  /**
   The walk and the printer agree. If the printer refuses a value for a name, the walk refuses it; and where
   the printer has nothing to drop and nothing else to object to, they refuse exactly the same values.
   */
  lemma WalkAgreesWithPrinter(heap: Heap, r: JsRef, v: C.JsValue)
    requires Denotes(heap, r, v)
    ensures C.Canonicalize(v) == C.Err(C.UnsafeName) ==> UnsafeReachable(heap, r)
    ensures UndefinedFree(v) && PrintableButNames(v) ==>
              (UnsafeReachable(heap, r) <==> C.Canonicalize(v) == C.Err(C.UnsafeName))
  {
    UnsafeReachableIsUnsafe(heap, r, v);
    if C.Canonicalize(v) == C.Err(C.UnsafeName) { RefusedNameIsUnsafe(v); }
    if UndefinedFree(v) && PrintableButNames(v) { PrinterRefusesUnsafe(v); }
  }
}
